/**
 The state shared by a sender spawned with `spawn_future`, the future object and the operation that
 consumes it: who owns it, who frees it, and who completes the consumer.

 Every critical section of `__mutex_` is one step. The sender may complete at any moment after it is
 submitted, even before the future object exists. Two stop callbacks, the scope's and the consumer's, work on
 the state's stop source from their beginning to their end. Nobody is given a token of that source, as the
 sender sees the scope's own, so no other code runs inside them.
 */
module FutureState {
  datatype Step = Created | Future | NoFuture | Deleted

  // ---------------------------------------------------------------- what the mutex guards

  // `fault` is history: an assertion of `__step_from_to_` failed, or `std::terminate` was reached.
  datatype Core = Core(step: Step, noFuture: bool, data: bool, subscribed: bool, fault: bool) {
    function FromTo(from: Step, to: Step): Core { this.(step := to, fault := fault || step != from) }

    // `set_value`, `set_error`, `set_stopped` of the future's receiver, up to the unlock; the subscribers
    // move to a local list.
    function Dispatched(): Core {
      var saved := this.(data := true, subscribed := false);
      if noFuture then saved.FromTo(NoFuture, Deleted) else saved
    }

    // The destructor of the future, and of a consumer that was never started.
    function Dropped(): Core { if data then this else this.(noFuture := true).FromTo(Future, NoFuture) }

    // `__future_op::start`, when there is no result yet
    function Subscribed(): Core { this.(subscribed := true) }

    // The checks at the head of `__complete_`
    function Checked(): Core { this.(fault := fault || noFuture || step != Future) }

    // `~__future_state_base`
    function Destroyed(): Core {
      if step == Created then FromTo(Created, Deleted)
      else if step != Deleted then FromTo(Future, Deleted)
      else this
    }
  }

  // ---------------------------------------------------------------- the steps

  // Who holds the `unique_ptr`: the function that made it, the future, its destructor after the unlock, the
  // consumer, the state itself, the local of `__complete_`, or nobody any more.
  datatype Owner = Maker | FutureObj | Dropping | Consumer(started: bool) | Itself | Completer | Nobody

  datatype SenderPc = Unsubmitted | Busy | Handing | Deleting | Over

  datatype CompletePc = Idle | Check | Deliver | Release | Finished

  // A stop callback: not registered, registered and not called, in its call, past it.
  datatype Callback = Off | Armed | Running | Past

  // `forward` is the consumer's callback, `scope` is `__forward_scope_`; `stop` is the stop bit of
  // `__stop_source_`, on which both call `request_stop`. `dropping`: the destructor of a consumer that was not
  // started is past its section and has yet to deregister its callback. `touchedFreed` is history: a step
  // used the state after it was freed. `path` records the values of `step`.
  datatype State = State(
    core: Core, owner: Owner, sender: SenderPc, complete: CompletePc,
    forward: Callback, scope: Callback, stop: bool, dropping: bool,
    completions: nat, frees: nat, touchedFreed: bool, path: seq<Step>)

  datatype Action =
    | ThrowInMake | Submit | MakeFuture | SenderSection | SenderDelete | SenderHand
    | DropFuture | DropFree | Connect | StartConsumer | DropConsumer
    | CompleteCheck | CompleteDeliver | CompleteRelease
    | ForwardBegin | ForwardEnd | Deregister       // the consumer's stop callback is called; it is removed
    | ScopeBegin | ScopeEnd
    | MoveAssign                                   // another future is moved into this one
    | ConnectThrows                                // the consumer's constructor throws, and drops the state

  predicate Enabled(s: State, a: Action) {
    match a
    // whoever removes a callback waits for the end of its call
    case ThrowInMake => s.owner.Maker? && s.sender.Unsubmitted? && !s.scope.Running?
    case Submit => s.owner.Maker? && s.sender.Unsubmitted?
    case MakeFuture => s.owner.Maker? && !s.sender.Unsubmitted?
    case SenderSection => s.sender.Busy? && !s.scope.Running?
    case SenderDelete => s.sender.Deleting?
    case SenderHand => s.sender.Handing?
    case DropFuture => s.owner.FutureObj?
    case DropFree => s.owner.Dropping? && !s.dropping
    case Connect => s.owner.FutureObj?
    case StartConsumer => s.owner == Consumer(false)
    case DropConsumer => s.owner == Consumer(false)
    case CompleteCheck => s.complete.Check? && !s.forward.Running?
    case CompleteDeliver => s.complete.Deliver?
    case CompleteRelease => s.complete.Release?
    case ForwardBegin => s.forward.Armed?
    case ForwardEnd => s.forward.Running?
    case Deregister => s.dropping && !s.forward.Running?
    case ScopeBegin => s.scope.Armed?
    case ScopeEnd => s.scope.Running?
    case MoveAssign => s.owner.FutureObj? && !s.scope.Running?
    case ConnectThrows => s.owner.FutureObj? && !s.scope.Running?
  }

  // A step that works on the state, leaving `core` behind.
  function Use(s: State, core: Core): State {
    s.(core := core, touchedFreed := s.touchedFreed || s.frees > 0,
       path := if core.step == s.core.step then s.path else s.path + [core.step])
  }

  function Free(s: State): State {
    Use(s, s.core.Destroyed()).(owner := Nobody, frees := s.frees + 1, scope := Off)
  }

  // `request_stop` goes on after its exchange only if it was the first.
  function Called(s: State): Callback { if s.stop then Past else Running }

  function Apply(s: State, a: Action): State
    requires Enabled(s, a)
  {
    match a
    case ThrowInMake => Free(s)
    case Submit => s.(sender := Busy)
    case MakeFuture => Use(s, s.core.FromTo(Created, Future)).(owner := FutureObj)
    case SenderSection =>
      Use(s, s.core.Dispatched()).(sender :=
        if s.core.noFuture then Deleting else if s.core.subscribed then Handing else Over, scope := Off)
    case SenderDelete => Free(s.(core := s.core.(noFuture := false))).(sender := Over)
    case SenderHand => s.(sender := Over, complete := Check)
    case DropFuture => Use(s, s.core.Dropped()).(owner := if s.core.data then Dropping else Itself)
    case DropFree => Free(s)
    case Connect => s.(owner := Consumer(false), forward := Armed)
    case StartConsumer =>
      if s.core.data then Use(s, s.core).(owner := Consumer(true), complete := Check)
      else Use(s, s.core.Subscribed()).(owner := Consumer(true))
    case DropConsumer => Use(s, s.core.Dropped()).(owner := if s.core.data then Dropping else Itself, dropping := true)
    case CompleteCheck => Use(s, s.core.Checked()).(owner := Completer, complete := Deliver, forward := Off)
    case CompleteDeliver => Use(s, s.core).(completions := s.completions + 1, complete := Release)
    case CompleteRelease => Free(s).(complete := Finished)
    case ForwardBegin => Use(s, s.core).(forward := Called(s), stop := true)
    case ForwardEnd => Use(s, s.core).(forward := Past)
    case Deregister => s.(forward := Off, dropping := false)
    case ScopeBegin => Use(s, s.core).(scope := Called(s), stop := true)
    case ScopeEnd => Use(s, s.core).(scope := Past)
    case MoveAssign => Free(s)
    case ConnectThrows => Free(s)
  }

  function Fresh(): State {
    State(Core(Created, false, false, false, false), Maker, Unsubmitted, Idle,
          Off, Armed, false, false, 0, 0, false, [Created])
  }

  predicate Init(s: State) { s == Fresh() }

  // ---------------------------------------------------------------- the invariant

  predicate IsPath(p: seq<Step>) {
    || p == [Created] || p == [Created, Deleted]
    || p == [Created, Future] || p == [Created, Future, Deleted]
    || p == [Created, Future, NoFuture] || p == [Created, Future, NoFuture, Deleted]
  }

  predicate OwnerOk(s: State) {
    match s.owner
    case Maker => s.core.step == Created && s.complete.Idle?
    case FutureObj => s.core.step == Future && s.complete.Idle?
    case Dropping => s.core.step == Future && s.core.data && s.complete.Idle?
    case Consumer(started) =>
      s.core.step == Future &&
      if !started then s.complete.Idle?
      else (s.complete.Idle? && (s.core.subscribed || s.sender.Handing?)) || s.complete.Check?
    case Itself =>
      && s.core.step == (if s.sender.Busy? then NoFuture else Deleted)
      && (s.sender.Busy? || s.sender.Deleting?) && s.complete.Idle?
    case Completer => s.core.step == Future && (s.complete.Deliver? || s.complete.Release?)
    case Nobody => s.core.step == Deleted && !s.sender.Busy? && (s.complete.Idle? || s.complete.Finished?)
  }

  predicate SenderOk(s: State) {
    && (s.core.data <==> !s.sender.Unsubmitted? && !s.sender.Busy?)
    && (s.sender.Deleting? ==> s.owner.Itself?)
    && (s.core.subscribed ==> s.owner == Consumer(true) && s.sender.Busy? && s.complete.Idle?)
    && (s.sender.Handing? ==> s.owner == Consumer(true) && s.complete.Idle?)
    && (!s.complete.Idle? ==> s.sender.Over?)
    && (s.sender.Unsubmitted? ==> s.owner.Maker? || s.owner.Nobody?)
  }

  // The scope's callback is registered until the sender completes, the consumer's until it is completed or gone.
  predicate CallbacksOk(s: State) {
    && (s.scope.Off? <==> s.core.data || s.owner.Nobody?)
    && (s.forward.Off? <==> !s.owner.Consumer? && !s.dropping)
    && (s.dropping ==> s.owner.Dropping? || s.owner.Itself? || s.owner.Nobody?)
  }

  // Who owns the state and how far everybody has come.
  predicate Account(s: State) {
    && !s.core.fault
    && s.frees == (if s.owner.Nobody? then 1 else 0)
    && IsPath(s.path) && s.path[|s.path| - 1] == s.core.step
    && (s.core.noFuture <==> s.owner.Itself?)
    && OwnerOk(s) && SenderOk(s) && CallbacksOk(s)
    && s.completions == (if s.complete.Release? || s.complete.Finished? then 1 else 0)
  }

  // The two ways in which the library frees the state whatever the sender does.
  predicate FreesEarly(a: Action) { a.MoveAssign? || a.ConnectThrows? }

  // Callers make it do so only when the sender has completed.
  predicate Proper(s: State, a: Action) { FreesEarly(a) ==> s.core.data }

  predicate OfSender(a: Action) { a.SenderSection? || a.SenderDelete? || a.SenderHand? }

  predicate OfMaker(a: Action) { a.ThrowInMake? || a.Submit? || a.MakeFuture? || a.DropFuture? }

  predicate OfCompletion(a: Action) { a.CompleteCheck? || a.CompleteDeliver? || a.CompleteRelease? || a.DropFree? }

  predicate OfForward(a: Action) { a.ForwardBegin? || a.ForwardEnd? }

  predicate OfCallback(a: Action) { OfForward(a) || a.ScopeBegin? || a.ScopeEnd? }

  lemma SenderStep(s: State, a: Action)
    requires Account(s) && Enabled(s, a) && OfSender(a)
    ensures Account(Apply(s, a))
  {}

  lemma MakerStep(s: State, a: Action)
    requires Account(s) && Enabled(s, a) && OfMaker(a)
    ensures Account(Apply(s, a))
  {}

  lemma EarlyStep(s: State, a: Action)
    requires Account(s) && Enabled(s, a) && FreesEarly(a) && s.core.data
    ensures Account(Apply(s, a))
  {}

  lemma CompletionStep(s: State, a: Action)
    requires Account(s) && Enabled(s, a) && OfCompletion(a)
    ensures Account(Apply(s, a))
  {}

  lemma ScopeStep(s: State, a: Action)
    requires Account(s) && Enabled(s, a) && OfCallback(a) && !OfForward(a)
    ensures Account(Apply(s, a))
  {}

  lemma ForwardStep(s: State, a: Action)
    requires Account(s) && Enabled(s, a) && OfForward(a)
    ensures Account(Apply(s, a))
  {}

  lemma ConsumerStep(s: State, a: Action)
    requires Account(s) && Enabled(s, a)
    requires !OfSender(a) && !OfMaker(a) && !FreesEarly(a) && !OfCompletion(a) && !OfCallback(a)
    ensures Account(Apply(s, a))
  {}

  lemma StepInv(s: State, a: Action)
    requires Account(s) && Enabled(s, a) && Proper(s, a)
    ensures Account(Apply(s, a))
  {
    if OfSender(a) {
      SenderStep(s, a);
    } else if OfMaker(a) {
      MakerStep(s, a);
    } else if FreesEarly(a) {
      EarlyStep(s, a);
    } else if OfCompletion(a) {
      CompletionStep(s, a);
    } else if OfForward(a) {
      ForwardStep(s, a);
    } else if OfCallback(a) {
      ScopeStep(s, a);
    } else {
      ConsumerStep(s, a);
    }
  }

  /** Any interleaving of sender, future, consumer and stop callbacks. */
  ghost predicate IsRun(run: seq<State>, acts: seq<Action>) {
    && |run| == |acts| + 1 && Init(run[0])
    && forall i | 0 <= i < |acts| :: Enabled(run[i], acts[i]) && run[i + 1] == Apply(run[i], acts[i])
  }

  ghost predicate ProperRun(run: seq<State>, acts: seq<Action>) {
    IsRun(run, acts) && forall i | 0 <= i < |acts| :: Proper(run[i], acts[i])
  }

  lemma {:induction false} RunInv(run: seq<State>, acts: seq<Action>, i: nat)
    requires ProperRun(run, acts) && i < |run|
    ensures Account(run[i])
  {
    if i > 0 {
      RunInv(run, acts, i - 1);
      StepInv(run[i - 1], acts[i - 1]);
    }
  }

  // ---------------------------------------------------------------- who uses freed memory

  // The step works on the state although it was freed.
  predicate UsesFreed(s: State, a: Action)
    requires Enabled(s, a)
  {
    Apply(s.(touchedFreed := false), a).touchedFreed
  }

  // Only the consumer's callback can, and it does so exactly if the state was freed before.
  lemma UsesFreedIff(s: State, a: Action)
    requires Account(s) && Enabled(s, a)
    ensures UsesFreed(s, a) <==> OfForward(a) && s.owner.Nobody?
  {
    if !OfForward(a) { NoOtherUse(s, a); }
  }

  lemma NoOtherUse(s: State, a: Action)
    requires Account(s) && Enabled(s, a) && !OfForward(a)
    ensures !UsesFreed(s, a)
  {}

  lemma TouchedStep(s: State, a: Action)
    requires Enabled(s, a)
    ensures Apply(s, a).touchedFreed <==> s.touchedFreed || UsesFreed(s, a)
  {}

  // Some step of the run up to `i` uses freed memory.
  ghost predicate SomeUse(run: seq<State>, acts: seq<Action>, i: nat)
    requires IsRun(run, acts) && i < |run|
  {
    exists k | 0 <= k < i :: OfForward(acts[k]) && run[k].owner.Nobody?
  }

  /** Whatever the interleaving, and whenever the tokens are triggered, freed memory is used exactly by a call of
      the consumer's stop callback that begins or ends after the state was freed. */
  lemma {:induction false} TouchedIff(run: seq<State>, acts: seq<Action>, i: nat)
    requires ProperRun(run, acts) && i < |run|
    ensures run[i].touchedFreed <==> SomeUse(run, acts, i)
  {
    if i > 0 {
      TouchedIff(run, acts, i - 1);
      RunInv(run, acts, i - 1);
      UsesFreedIff(run[i - 1], acts[i - 1]);
      TouchedStep(run[i - 1], acts[i - 1]);
      assert SomeUse(run, acts, i) <==>
             SomeUse(run, acts, i - 1) || (OfForward(acts[i - 1]) && run[i - 1].owner.Nobody?);
    }
  }

  // What callers have to keep to besides: the consumer's callback is not in a call when the destruction of an
  // unstarted consumer begins, and is not called during it.
  predicate Ordinary(s: State, a: Action) {
    && Proper(s, a)
    && (a.DropConsumer? ==> !s.forward.Running?)
    && (a.ForwardBegin? ==> !s.dropping)
  }

  ghost predicate OrdinaryRun(run: seq<State>, acts: seq<Action>) {
    IsRun(run, acts) && forall i | 0 <= i < |acts| :: Ordinary(run[i], acts[i])
  }

  // The destruction of an unstarted consumer goes on in peace.
  predicate Quiet(s: State) { s.dropping ==> !s.forward.Running? }

  lemma QuietStep(s: State, a: Action)
    requires Account(s) && Quiet(s) && Enabled(s, a) && Ordinary(s, a)
    ensures Quiet(Apply(s, a)) && !UsesFreed(s, a)
  {
    UsesFreedIff(s, a);
  }

  lemma {:induction false} OrdinaryInv(run: seq<State>, acts: seq<Action>, i: nat)
    requires OrdinaryRun(run, acts) && i < |run|
    ensures Account(run[i]) && Quiet(run[i]) && !run[i].touchedFreed
  {
    RunInv(run, acts, i);
    if i > 0 {
      OrdinaryInv(run, acts, i - 1);
      QuietStep(run[i - 1], acts[i - 1]);
      TouchedStep(run[i - 1], acts[i - 1]);
    }
  }

  // ---------------------------------------------------------------- what holds over whole runs

  /** No assertion fails, nothing is used after it is freed, and the step takes one of the three ways. */
  lemma StepsAreSound(run: seq<State>, acts: seq<Action>, i: nat)
    requires OrdinaryRun(run, acts) && i < |run|
    ensures !run[i].core.fault && !run[i].touchedFreed && IsPath(run[i].path)
  {
    OrdinaryInv(run, acts, i);
  }

  // Neither the sender nor a completion has anything left to do, and no caller holds the future.
  predicate Settled(s: State) {
    && (s.sender.Over? || (s.sender.Unsubmitted? && s.owner.Nobody?))
    && (s.complete.Idle? || s.complete.Finished?)
    && !s.owner.Maker? && !s.owner.FutureObj? && !s.owner.Dropping? && s.owner != Consumer(false)
  }

  /** The state is freed at most once, and exactly once when everybody is done. */
  lemma FreedOnce(run: seq<State>, acts: seq<Action>, i: nat)
    requires ProperRun(run, acts) && i < |run|
    ensures run[i].frees <= 1
    ensures Settled(run[i]) ==> run[i].frees == 1 && run[i].core.step == Deleted
  {
    RunInv(run, acts, i);
  }

  /** A consumer is completed at most once, never unless it was started, and once the sender is over a
      started consumer has been completed or its completion is under way. */
  lemma CompletedOnce(run: seq<State>, acts: seq<Action>, i: nat, j: nat)
    requires ProperRun(run, acts) && i < |run|
    requires j < |acts| && acts[j] == StartConsumer
    ensures run[i].completions <= 1
    ensures j < i && run[i].sender.Over? ==> !run[i].complete.Idle?
    ensures j < i && Settled(run[i]) ==> run[i].completions == 1
  {
    RunInv(run, acts, i);
    if j < i { StartedStays(run, acts, j, i); }
  }

  predicate ConsumerStarted(s: State) { s.owner == Consumer(true) || !s.complete.Idle? }

  lemma StartedStep(s: State, a: Action)
    requires SenderOk(s) && Enabled(s, a) && ConsumerStarted(s)
    ensures ConsumerStarted(Apply(s, a))
  {}

  lemma {:induction false} StartedStays(run: seq<State>, acts: seq<Action>, j: nat, i: nat)
    requires ProperRun(run, acts) && j < i < |run| && acts[j] == StartConsumer
    ensures ConsumerStarted(run[i])
    decreases i
  {
    if j < i - 1 {
      StartedStays(run, acts, j, i - 1);
      RunInv(run, acts, i - 1);
      StartedStep(run[i - 1], acts[i - 1]);
    }
  }

  lemma NotStartedStep(s: State, a: Action)
    requires SenderOk(s) && Enabled(s, a) && a != StartConsumer && !ConsumerStarted(s)
    ensures !ConsumerStarted(Apply(s, a)) && Apply(s, a).completions == s.completions
  {}

  lemma {:induction false} NotStartedNotCompleted(run: seq<State>, acts: seq<Action>, i: nat)
    requires ProperRun(run, acts) && i < |run|
    requires forall j | 0 <= j < i :: acts[j] != StartConsumer
    ensures !ConsumerStarted(run[i]) && run[i].completions == 0
  {
    if i > 0 {
      NotStartedNotCompleted(run, acts, i - 1);
      RunInv(run, acts, i - 1);
      NotStartedStep(run[i - 1], acts[i - 1]);
    }
  }

  // Can some step use the state although it was freed?
  ghost predicate CanTouchFreed(s: State) { exists a :: Enabled(s, a) && Apply(s, a).touchedFreed }

  /** The defaulted move assignment, and a consumer whose constructor throws, do not do what the destructor
      does: they free the state at once. The sender then works on freed memory exactly when it had not
      completed before. */
  lemma EarlyFreeIff(run: seq<State>, acts: seq<Action>, i: nat, a: Action)
    requires ProperRun(run, acts) && i < |run| && !run[i].touchedFreed && FreesEarly(a) && Enabled(run[i], a)
    ensures CanTouchFreed(Apply(run[i], a)) <==> !run[i].core.data
  {
    RunInv(run, acts, i);
    var s := Apply(run[i], a);
    if run[i].core.data {
      StepInv(run[i], a);
      forall b | Enabled(s, b) ensures !UsesFreed(s, b) { UsesFreedIff(s, b); }
    } else {
      assert Enabled(s, SenderSection) && Apply(s, SenderSection).touchedFreed;
    }
  }

  /** When the sender frees the state, a step that uses freed memory is left exactly if an unstarted consumer is
      being destroyed and its stop callback may still be called, or has not returned. */
  lemma DeleteIff(run: seq<State>, acts: seq<Action>, k: nat)
    requires ProperRun(run, acts) && k < |acts| && acts[k].SenderDelete? && !run[k].touchedFreed
    ensures CanTouchFreed(run[k + 1]) <==> run[k].forward.Armed? || run[k].forward.Running?
    ensures CanTouchFreed(run[k + 1]) ==> run[k].dropping
  {
    RunInv(run, acts, k);
    RunInv(run, acts, k + 1);
    DeleteStep(run[k]);
    LateCall(run[k + 1]);
  }

  lemma DeleteStep(s: State)
    requires Account(s) && Enabled(s, SenderDelete) && !s.touchedFreed
    ensures var s' := Apply(s, SenderDelete);
            s'.owner.Nobody? && s'.forward == s.forward && s'.dropping == s.dropping && !s'.touchedFreed
  {}

  lemma LateCall(s: State)
    requires Account(s) && s.owner.Nobody? && !s.touchedFreed
    ensures CanTouchFreed(s) <==> s.forward.Armed? || s.forward.Running?
  {
    forall b | Enabled(s, b) ensures UsesFreed(s, b) <==> OfForward(b) { UsesFreedIff(s, b); }
    if s.forward.Armed? { assert Enabled(s, ForwardBegin) && UsesFreed(s, ForwardBegin); }
    if s.forward.Running? { assert Enabled(s, ForwardEnd) && UsesFreed(s, ForwardEnd); }
  }

  ghost predicate SenderDeletes(acts: seq<Action>, j: nat, k: nat)
    requires k <= |acts|
  {
    exists m | j < m < k :: acts[m].SenderDelete?
  }

  // From the section of the consumer's destructor on.
  predicate Dropped(s: State) {
    && (s.owner.Dropping? || s.owner.Itself? || s.owner.Nobody?)
    && (s.dropping || s.forward.Off?)
  }

  lemma DropStep(s: State)
    requires Account(s) && Enabled(s, DropConsumer)
    ensures var s' := Apply(s, DropConsumer); Dropped(s') && s'.dropping && !s'.owner.Nobody?
  {}

  lemma DroppedStep(s: State, a: Action)
    requires Account(s) && Enabled(s, a) && Dropped(s)
    ensures var s' := Apply(s, a);
            && Dropped(s')
            && (s'.dropping ==> s.dropping && (s'.owner.Nobody? <==> s.owner.Nobody? || a.SenderDelete?))
  {}

  lemma {:induction false} WhileDropping(run: seq<State>, acts: seq<Action>, j: nat, k: nat)
    requires ProperRun(run, acts) && j < k < |run| && acts[j].DropConsumer?
    ensures Dropped(run[k])
    ensures run[k].dropping ==> (run[k].owner.Nobody? <==> SenderDeletes(acts, j, k))
    decreases k
  {
    RunInv(run, acts, k - 1);
    if j == k - 1 {
      DropStep(run[j]);
    } else {
      WhileDropping(run, acts, j, k - 1);
      DroppedStep(run[k - 1], acts[k - 1]);
      assert SenderDeletes(acts, j, k) <==> SenderDeletes(acts, j, k - 1) || acts[k - 1].SenderDelete?;
    }
  }

  /** The destructor of an unstarted consumer gives the state away before it deregisters the stop callback. A call
      of the callback that begins or ends after that uses freed memory exactly if the sender has freed the state
      in between, whether the call began before the destruction or during it. */
  lemma ForwardIff(run: seq<State>, acts: seq<Action>, j: nat, k: nat)
    requires ProperRun(run, acts) && j < k < |acts| && acts[j].DropConsumer? && OfForward(acts[k])
    ensures UsesFreed(run[k], acts[k]) <==> exists m | j < m < k :: acts[m].SenderDelete?
  {
    RunInv(run, acts, k);
    WhileDropping(run, acts, j, k);
    UsesFreedIff(run[k], acts[k]);
    assert SenderDeletes(acts, j, k) <==> exists m | j < m < k :: acts[m].SenderDelete?;
  }

  lemma Extend(run: seq<State>, acts: seq<Action>, a: Action) returns (run': seq<State>, acts': seq<Action>)
    requires IsRun(run, acts) && Enabled(run[|acts|], a)
    ensures IsRun(run', acts') && acts' == acts + [a] && run'[|acts'|] == Apply(run[|acts|], a)
  {
    run', acts' := run + [Apply(run[|acts|], a)], acts + [a];
  }

  lemma Spawned() returns (run: seq<State>, acts: seq<Action>)
    ensures IsRun(run, acts) && acts == [Submit, MakeFuture]
    ensures run[|acts|] == Fresh().(core := Core(Future, false, false, false, false), owner := FutureObj,
                                    sender := Busy, path := [Created, Future])
  {
    run, acts := [Fresh()], [];
    run, acts := Extend(run, acts, Submit);
    run, acts := Extend(run, acts, MakeFuture);
  }

  /** The smallest run with an early free: spawn, and assign over the future while the sender is busy. */
  lemma MoveAssignHurts() returns (run: seq<State>, acts: seq<Action>)
    ensures IsRun(run, acts) && run[|acts|].touchedFreed
  {
    run, acts := Spawned();
    run, acts := Extend(run, acts, MoveAssign);
    run, acts := Extend(run, acts, SenderSection);
  }

  /** The smallest with a call of the consumer's callback that begins too late, ... */
  lemma ForwardHurts() returns (run: seq<State>, acts: seq<Action>)
    ensures IsRun(run, acts) && run[|acts|].touchedFreed && acts[|acts| - 1] == ForwardBegin
  {
    run, acts := Spawned();
    run, acts := Extend(run, acts, Connect);
    run, acts := Extend(run, acts, DropConsumer);
    run, acts := Extend(run, acts, SenderSection);
    run, acts := Extend(run, acts, SenderDelete);
    run, acts := Extend(run, acts, ForwardBegin);
  }

  /** ... and with one that begins before the destruction and ends too late. */
  lemma ForwardEndHurts() returns (run: seq<State>, acts: seq<Action>)
    ensures IsRun(run, acts) && run[|acts|].touchedFreed && acts[|acts| - 1] == ForwardEnd
    ensures exists j, k | 0 <= j < k < |acts| :: acts[j] == ForwardBegin && acts[k] == DropConsumer
  {
    run, acts := DroppedInCall();
    run, acts := Extend(run, acts, SenderSection);
    run, acts := Extend(run, acts, SenderDelete);
    run, acts := Extend(run, acts, ForwardEnd);
    assert acts[3] == ForwardBegin && acts[4] == DropConsumer;
  }

  lemma DroppedInCall() returns (run: seq<State>, acts: seq<Action>)
    ensures IsRun(run, acts) && acts == [Submit, MakeFuture, Connect, ForwardBegin, DropConsumer]
    ensures run[|acts|] ==
            State(Core(NoFuture, true, false, false, false), Itself, Busy, Idle,
                  Running, Armed, true, true, 0, 0, false, [Created, Future, NoFuture])
  {
    run, acts := Spawned();
    run, acts := Extend(run, acts, Connect);
    run, acts := Extend(run, acts, ForwardBegin);
    run, acts := Extend(run, acts, DropConsumer);
  }

  // ---------------------------------------------------------------- in place

  // The members of `__future_state_base` behind `__mutex_`, and their critical sections.
  class SharedState {
    var step: Step
    var noFuture: bool
    var data: bool
    var subscribed: bool
    ghost var fault: bool

    ghost function View(): Core
      reads this
    {
      Core(step, noFuture, data, subscribed, fault)
    }

    constructor ()
      ensures View() == Core(Created, false, false, false, false)
    {
      step, noFuture, data, subscribed, fault := Created, false, false, false, false;
    }

    method StepFromTo(from: Step, to: Step)
      modifies this`step, this`fault
      ensures View() == old(View()).FromTo(from, to)
    {
      var actual := step;
      step := to;
      fault := fault || actual != from;
    }

    // `__dispatch_result_`: what the sender has to do after the unlock
    method Dispatch() returns (next: SenderPc)
      modifies this
      ensures View() == old(View()).Dispatched()
      ensures next == if old(noFuture) then Deleting else if old(subscribed) then Handing else Over
    {
      data := true;
      var local := subscribed;
      subscribed := false;
      if noFuture {
        StepFromTo(NoFuture, Deleted);
        return Deleting;
      }
      next := if local then Handing else Over;
    }

    // `~__t` of the future and of the consumer: does the caller free the state?
    method Drop() returns (frees: bool)
      modifies this
      ensures View() == old(View()).Dropped() && frees == old(data)
    {
      if data {
        return true;
      }
      noFuture := true;
      StepFromTo(Future, NoFuture);
      frees := false;
    }

    // `__future_op::start`: does the caller complete the consumer itself?
    method Start() returns (completes: bool)
      modifies this
      ensures completes == old(data)
      ensures View() == if completes then old(View()) else old(View()).Subscribed()
    {
      completes := data;
      if !completes {
        subscribed := true;
      }
    }

    // The head of `__complete_`
    method Check()
      modifies this`fault
      ensures View() == old(View()).Checked()
    {
      fault := fault || noFuture || step != Future;
    }

    // `~__future_state_base`
    method Destroy()
      modifies this`step, this`fault
      ensures View() == old(View()).Destroyed()
    {
      if step == Created {
        StepFromTo(Created, Deleted);
      } else if step != Deleted {
        StepFromTo(Future, Deleted);
      }
    }

    /** Any action of the protocol, carried out on the object: it ends in the state the protocol says, and
        what the section answers is what its caller goes on to do. */
    method Act(ghost s: State, a: Action) returns (answer: Answer)
      requires Enabled(s, a) && View() == s.core
      modifies this
      ensures View() == Apply(s, a).core && Agrees(answer, a, Apply(s, a))
    {
      answer := Nothing;
      match a {
        case MakeFuture => StepFromTo(Created, Future);
        case SenderSection =>
          var next := Dispatch();
          answer := Next(next);
        case DropFuture | DropConsumer =>
          var frees := Drop();
          answer := Yes(frees);
        case StartConsumer =>
          var completes := Start();
          answer := Yes(completes);
        case CompleteCheck => Check();
        case _ => ActOwner(s, a);
      }
    }

    // The actions without an answer that free the state, and those that leave it alone.
    method ActOwner(ghost s: State, a: Action)
      requires Enabled(s, a) && View() == s.core && !Answers(a) && !a.MakeFuture? && !a.CompleteCheck?
      modifies this
      ensures View() == Apply(s, a).core
    {
      match a {
        case SenderDelete =>
          noFuture := false;
          Destroy();
        case ThrowInMake | DropFree | CompleteRelease | MoveAssign | ConnectThrows => Destroy();
        case _ =>
      }
    }

    /** So the object goes through every run, faults and all. */
    method Replay(ghost run: seq<State>, acts: seq<Action>) returns (answers: seq<Answer>)
      requires IsRun(run, acts) && View() == run[0].core
      modifies this
      ensures View() == run[|acts|].core && |answers| == |acts|
      ensures forall i | 0 <= i < |acts| :: Agrees(answers[i], acts[i], run[i + 1])
    {
      answers := [];
      for i := 0 to |acts|
        invariant View() == run[i].core && |answers| == i
        invariant forall k | 0 <= k < i :: Agrees(answers[k], acts[k], run[k + 1])
      {
        var answer := Act(run[i], acts[i]);
        answers := answers + [answer];
      }
    }
  }

  predicate Answers(a: Action) { a.SenderSection? || a.DropFuture? || a.DropConsumer? || a.StartConsumer? }

  datatype Answer = Nothing | Next(pc: SenderPc) | Yes(b: bool)

  predicate Agrees(answer: Answer, a: Action, after: State) {
    match a
    case SenderSection => answer == Next(after.sender)
    case DropFuture => answer == Yes(after.owner.Dropping?)
    case DropConsumer => answer == Yes(after.owner.Dropping?)
    case StartConsumer => answer.Yes? && if answer.b then after.complete.Check? else after.core.subscribed
    case _ => true
  }
}

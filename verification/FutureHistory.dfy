/**
 The protocol of `spawn_future` told by its past alone: which actions are possible after a sequence of them, in which
 order sender, future, consumer and callbacks therefore come, what the assertions check, and that nothing gets stuck.
 */
module FutureHistory {
  import opened FutureState

  lemma StepOf(run: seq<State>, acts: seq<Action>, i: nat)
    requires IsRun(run, acts) && i < |acts|
    ensures Enabled(run[i], acts[i]) && run[i + 1] == Apply(run[i], acts[i])
  {}

  // ---------------------------------------------------------------- the past

  // `done` are the actions so far; `dropped` and `awaited` say that the future or its consumer was dropped, or the
  // consumer started, before the sender's section; `first` is the callback that was called first.
  datatype History = History(done: set<Action>, dropped: bool, awaited: bool, first: set<Action>)

  predicate Gone(p: History) { DropFuture in p.done || DropConsumer in p.done }

  function After(p: History, a: Action): History {
    var q := p.(done := p.done + {a});
    if a.SenderSection? then q.(dropped := Gone(p), awaited := StartConsumer in p.done)
    else if (a.ForwardBegin? || a.ScopeBegin?) && p.first == {} then q.(first := {a})
    else q
  }

  function PastOf(acts: seq<Action>, i: nat): History
    requires i <= |acts|
  {
    if i == 0 then History({}, false, false, {}) else After(PastOf(acts, i - 1), acts[i - 1])
  }

  // Only the first callback that is called stays in its call.
  predicate InForward(p: History) { ForwardBegin in p.first && ForwardEnd !in p.done }

  predicate InScope(p: History) { ScopeBegin in p.first && ScopeEnd !in p.done }

  // The caller has the future.
  predicate Held(p: History) {
    && MakeFuture in p.done && DropFuture !in p.done && Connect !in p.done
    && MoveAssign !in p.done && ConnectThrows !in p.done
  }

  // The result has come and the consumer waits for it.
  predicate Completing(p: History) {
    StartConsumer in p.done && SenderSection in p.done && (p.awaited ==> SenderHand in p.done)
  }

  /* What may come next, in the words of the interface: the sender completes once; it deletes the state if the
     future was dropped before, and completes the consumer if that was started before; otherwise whoever comes after
     it does so. */
  predicate Due(p: History, a: Action) {
    match a
    case ThrowInMake => Submit !in p.done && ThrowInMake !in p.done && !InScope(p)
    case Submit => Submit !in p.done && ThrowInMake !in p.done
    case MakeFuture => Submit in p.done && MakeFuture !in p.done
    case SenderSection => Submit in p.done && SenderSection !in p.done && !InScope(p)
    case SenderDelete => p.dropped && SenderDelete !in p.done
    case SenderHand => p.awaited && SenderHand !in p.done
    case DropFuture => Held(p)
    case Connect => Held(p)
    case MoveAssign => Held(p) && !InScope(p)
    case ConnectThrows => Held(p) && !InScope(p)
    case StartConsumer => Connect in p.done && StartConsumer !in p.done && DropConsumer !in p.done
    case DropConsumer => Connect in p.done && StartConsumer !in p.done && DropConsumer !in p.done
    case DropFree =>
      && Gone(p) && SenderSection in p.done && !p.dropped && DropFree !in p.done
      && (DropConsumer in p.done ==> Deregister in p.done)
    case CompleteCheck => Completing(p) && CompleteCheck !in p.done && !InForward(p)
    case CompleteDeliver => CompleteCheck in p.done && CompleteDeliver !in p.done
    case CompleteRelease => CompleteDeliver in p.done && CompleteRelease !in p.done
    case ForwardBegin =>
      Connect in p.done && ForwardBegin !in p.done && CompleteCheck !in p.done && Deregister !in p.done
    case ForwardEnd => InForward(p)
    case Deregister => DropConsumer in p.done && Deregister !in p.done && !InForward(p)
    case ScopeBegin => ScopeBegin !in p.done && SenderSection !in p.done && ThrowInMake !in p.done
    case ScopeEnd => InScope(p)
  }

  // ---------------------------------------------------------------- the state told by the past

  function SenderBy(p: History): SenderPc {
    if Submit !in p.done then Unsubmitted
    else if SenderSection !in p.done then Busy
    else if p.dropped && SenderDelete !in p.done then Deleting
    else if p.awaited && SenderHand !in p.done then Handing
    else Over
  }

  function CompleteBy(p: History): CompletePc {
    if CompleteRelease in p.done then Finished
    else if CompleteDeliver in p.done then Release
    else if CompleteCheck in p.done then Deliver
    else if Completing(p) then Check
    else Idle
  }

  predicate Freed(p: History) {
    || ThrowInMake in p.done || SenderDelete in p.done || DropFree in p.done || CompleteRelease in p.done
    || MoveAssign in p.done || ConnectThrows in p.done
  }

  function OwnerBy(p: History): Owner {
    if Freed(p) then Nobody
    else if MakeFuture !in p.done then Maker
    else if CompleteCheck in p.done then Completer
    else if Gone(p) then if SenderSection in p.done && !p.dropped then Dropping else Itself
    else if Connect in p.done then Consumer(StartConsumer in p.done)
    else FutureObj
  }

  function ForwardBy(p: History): Callback {
    if Connect !in p.done || CompleteCheck in p.done || Deregister in p.done then Off
    else if ForwardBegin !in p.done then Armed
    else if InForward(p) then Running
    else Past
  }

  function ScopeBy(p: History): Callback {
    if SenderSection in p.done || ThrowInMake in p.done then Off
    else if ScopeBegin !in p.done then Armed
    else if InScope(p) then Running
    else Past
  }

  predicate ControlOk(s: State, p: History) {
    s.sender == SenderBy(p) && s.complete == CompleteBy(p) && s.owner == OwnerBy(p)
  }

  predicate CallsOk(s: State, p: History) {
    && s.forward == ForwardBy(p) && s.scope == ScopeBy(p) && (s.stop <==> p.first != {})
    && (s.dropping <==> DropConsumer in p.done && Deregister !in p.done)
  }

  predicate FlagsOk(s: State, p: History) {
    && (s.core.data <==> SenderSection in p.done)
    && (s.core.subscribed <==> StartConsumer in p.done && SenderSection !in p.done)
  }

  // What can have happened together.
  predicate Ordered(p: History) {
    && (p.dropped ==> SenderSection in p.done && Gone(p))
    && (p.awaited ==> SenderSection in p.done && StartConsumer in p.done)
    && (SenderDelete in p.done ==> p.dropped) && (SenderHand in p.done ==> p.awaited)
    && (ThrowInMake in p.done ==> Submit !in p.done) && (MakeFuture in p.done ==> Submit in p.done)
    && (SenderSection in p.done ==> Submit in p.done)
    && (Connect in p.done ==> MakeFuture in p.done && DropFuture !in p.done)
    && (DropFuture in p.done ==> MakeFuture in p.done)
    && (MoveAssign in p.done || ConnectThrows in p.done ==>
          MakeFuture in p.done && DropFuture !in p.done && Connect !in p.done && SenderSection in p.done)
    && (StartConsumer in p.done ==> Connect in p.done && DropConsumer !in p.done)
    && (DropConsumer in p.done ==> Connect in p.done)
    && (DropFree in p.done ==> Gone(p) && SenderSection in p.done && !p.dropped)
    && (Deregister in p.done ==> DropConsumer in p.done)
    && (DropFree in p.done && DropConsumer in p.done ==> Deregister in p.done)
    && (CompleteCheck in p.done ==> Completing(p))
    && (CompleteDeliver in p.done ==> CompleteCheck in p.done)
    && (CompleteRelease in p.done ==> CompleteDeliver in p.done)
  }

  predicate CallbacksOrdered(p: History) {
    && (p.first == {} || p.first == {ForwardBegin} || p.first == {ScopeBegin})
    && (p.first == {} <==> ForwardBegin !in p.done && ScopeBegin !in p.done)
    && (ForwardBegin in p.first ==> ForwardBegin in p.done) && (ScopeBegin in p.first ==> ScopeBegin in p.done)
    && (ForwardEnd in p.done ==> ForwardBegin in p.first) && (ScopeEnd in p.done ==> ScopeBegin in p.first)
    && (ForwardBegin in p.done ==> Connect in p.done)
    && (SenderSection in p.done || ThrowInMake in p.done ==> !InScope(p))
    && (CompleteCheck in p.done || Deregister in p.done ==> !InForward(p))
  }

  predicate Told(s: State, p: History) {
    ControlOk(s, p) && CallsOk(s, p) && FlagsOk(s, p) && Ordered(p) && CallbacksOrdered(p)
  }

  lemma ToldDue(s: State, p: History, a: Action)
    requires Told(s, p)
    ensures Enabled(s, a) <==> Due(p, a)
  {}

  lemma OrderedStep(p: History, a: Action)
    requires Ordered(p) && Due(p, a) && (FreesEarly(a) ==> SenderSection in p.done)
    requires CallbacksOrdered(p)
    ensures Ordered(After(p, a)) && CallbacksOrdered(After(p, a))
  {}

  predicate OfConsumer(a: Action) { a.Connect? || a.StartConsumer? || a.DropConsumer? || a.Deregister? }

  lemma SenderTold(s: State, p: History, a: Action)
    requires Told(s, p) && Due(p, a) && Enabled(s, a) && OfSender(a) && (s.core.noFuture <==> s.owner.Itself?)
    ensures ControlOk(Apply(s, a), After(p, a)) && CallsOk(Apply(s, a), After(p, a))
  {}

  lemma MakerTold(s: State, p: History, a: Action)
    requires Told(s, p) && Due(p, a) && Enabled(s, a) && OfMaker(a) && (s.core.noFuture <==> s.owner.Itself?)
    ensures ControlOk(Apply(s, a), After(p, a)) && CallsOk(Apply(s, a), After(p, a))
  {}

  lemma CompletionTold(s: State, p: History, a: Action)
    requires Told(s, p) && Due(p, a) && Enabled(s, a) && OfCompletion(a) && (s.core.noFuture <==> s.owner.Itself?)
    ensures ControlOk(Apply(s, a), After(p, a)) && CallsOk(Apply(s, a), After(p, a))
  {}

  lemma ForwardTold(s: State, p: History, a: Action)
    requires Told(s, p) && Due(p, a) && Enabled(s, a) && OfForward(a) && (s.core.noFuture <==> s.owner.Itself?)
    ensures ControlOk(Apply(s, a), After(p, a)) && CallsOk(Apply(s, a), After(p, a))
  {}

  lemma ScopeTold(s: State, p: History, a: Action)
    requires Told(s, p) && Due(p, a) && Enabled(s, a) && OfCallback(a) && !OfForward(a)
    requires s.core.noFuture <==> s.owner.Itself?
    ensures ControlOk(Apply(s, a), After(p, a)) && CallsOk(Apply(s, a), After(p, a))
  {}

  lemma EarlyTold(s: State, p: History, a: Action)
    requires Told(s, p) && Due(p, a) && Enabled(s, a) && FreesEarly(a) && s.core.data
    requires s.core.noFuture <==> s.owner.Itself?
    ensures ControlOk(Apply(s, a), After(p, a)) && CallsOk(Apply(s, a), After(p, a))
  {}

  lemma ConsumerTold(s: State, p: History, a: Action)
    requires Told(s, p) && Due(p, a) && Enabled(s, a) && OfConsumer(a) && (s.core.noFuture <==> s.owner.Itself?)
    ensures ControlOk(Apply(s, a), After(p, a)) && CallsOk(Apply(s, a), After(p, a))
  {}

  lemma FlagsStep(s: State, p: History, a: Action)
    requires Told(s, p) && Due(p, a) && Enabled(s, a)
    ensures FlagsOk(Apply(s, a), After(p, a))
  {}

  lemma ToldStep(s: State, p: History, a: Action)
    requires Account(s) && Told(s, p) && Enabled(s, a) && Proper(s, a)
    ensures Told(Apply(s, a), After(p, a))
  {
    ToldDue(s, p, a);
    OrderedStep(p, a);
    FlagsStep(s, p, a);
    if OfSender(a) {
      SenderTold(s, p, a);
    } else if OfMaker(a) {
      MakerTold(s, p, a);
    } else if OfCompletion(a) {
      CompletionTold(s, p, a);
    } else if OfForward(a) {
      ForwardTold(s, p, a);
    } else if OfCallback(a) {
      ScopeTold(s, p, a);
    } else if FreesEarly(a) {
      EarlyTold(s, p, a);
    } else {
      ConsumerTold(s, p, a);
    }
  }

  lemma {:induction false} ToldRun(run: seq<State>, acts: seq<Action>, i: nat)
    requires ProperRun(run, acts) && i < |run|
    ensures Told(run[i], PastOf(acts, i))
  {
    if i > 0 {
      ToldRun(run, acts, i - 1);
      RunInv(run, acts, i - 1);
      StepOf(run, acts, i - 1);
      ToldStep(run[i - 1], PastOf(acts, i - 1), acts[i - 1]);
    }
  }

  /** The protocol in terms of the past: an action is possible exactly if it is due. */
  lemma EnabledIff(run: seq<State>, acts: seq<Action>, i: nat, a: Action)
    requires ProperRun(run, acts) && i < |run|
    ensures Enabled(run[i], a) <==> Due(PastOf(acts, i), a)
  {
    ToldRun(run, acts, i);
    ToldDue(run[i], PastOf(acts, i), a);
  }

  lemma {:induction false} DoneStays(acts: seq<Action>, j: nat, i: nat)
    requires j < i <= |acts|
    ensures acts[j] in PastOf(acts, i).done
    decreases i
  {
    if j < i - 1 { DoneStays(acts, j, i - 1); }
  }

  /** Everything happens at most once. */
  lemma OnceEach(run: seq<State>, acts: seq<Action>, j: nat, k: nat)
    requires ProperRun(run, acts) && j < k < |acts|
    ensures acts[j] != acts[k]
  {
    ToldRun(run, acts, k);
    StepOf(run, acts, k);
    ToldDue(run[k], PastOf(acts, k), acts[k]);
    DoneStays(acts, j, k);
    NotAgain(PastOf(acts, k), acts[k]);
  }

  lemma NotAgain(p: History, a: Action)
    requires Ordered(p) && CallbacksOrdered(p) && Due(p, a)
    ensures a !in p.done
  {}

  /** Until the state is freed and everybody is through, something other than a call of a callback is possible. */
  lemma NeverStuck(run: seq<State>, acts: seq<Action>, i: nat)
    requires ProperRun(run, acts) && i < |run|
    requires !Settled(run[i]) || run[i].dropping || run[i].forward.Running? || run[i].scope.Running?
    ensures exists a :: Enabled(run[i], a) && !a.ForwardBegin? && !a.ScopeBegin?
  {
    RunInv(run, acts, i);
    SomethingLeft(run[i]);
  }

  function Left(s: State): Action {
    if s.forward.Running? then ForwardEnd
    else if s.scope.Running? then ScopeEnd
    else if s.dropping then Deregister
    else match s.sender
      case Busy => SenderSection
      case Handing => SenderHand
      case Deleting => SenderDelete
      case _ =>
        match s.complete
        case Check => CompleteCheck
        case Deliver => CompleteDeliver
        case Release => CompleteRelease
        case _ =>
          match s.owner
          case Maker => if s.sender.Unsubmitted? then Submit else MakeFuture
          case FutureObj => DropFuture
          case Dropping => DropFree
          case _ => StartConsumer
  }

  lemma SomethingLeft(s: State)
    requires Account(s) && (!Settled(s) || s.dropping || s.forward.Running? || s.scope.Running?)
    ensures Enabled(s, Left(s)) && !Left(s).ForwardBegin? && !Left(s).ScopeBegin?
  {}

  // ---------------------------------------------------------------- the assertions

  predicate Frees(a: Action) {
    a.ThrowInMake? || a.SenderDelete? || a.DropFree? || a.CompleteRelease? || FreesEarly(a)
  }

  // An assertion of the step fails: the `step` it finds is not the one it expects.
  predicate Fails(s: State, a: Action) {
    match a
    case MakeFuture => s.core.step != Created
    case SenderSection => s.core.noFuture && s.core.step != NoFuture
    case DropFuture => !s.core.data && s.core.step != Future
    case DropConsumer => !s.core.data && s.core.step != Future
    case CompleteCheck => s.core.noFuture || s.core.step != Future
    case _ => Frees(a) && s.core.step == NoFuture
  }

  // `~__future_state_base` and the record of it.
  lemma Freeing(s: State)
    ensures Free(s).core.fault <==> s.core.fault || s.core.step == NoFuture
    ensures Free(s).core.step == Deleted
    ensures Free(s).path == if s.core.step == Deleted then s.path else s.path + [Deleted]
  {}

  // The section in which an action frees the state.
  lemma FreesIt(s: State, a: Action)
    requires Enabled(s, a) && Frees(a)
    ensures var f := Free(if a.SenderDelete? then s.(core := s.core.(noFuture := false)) else s);
            Apply(s, a).core == f.core && Apply(s, a).path == f.path
  {}

  lemma FreeFaults(s: State, a: Action)
    requires Enabled(s, a) && Frees(a)
    ensures Apply(s, a).core.fault <==> s.core.fault || Fails(s, a)
    ensures Apply(s, a).core.step == Deleted
    ensures Apply(s, a).path == if s.core.step == Deleted then s.path else s.path + [Deleted]
  {
    FreesIt(s, a);
    Freeing(if a.SenderDelete? then s.(core := s.core.(noFuture := false)) else s);
  }

  predicate Checks(a: Action) {
    a.MakeFuture? || a.SenderSection? || a.DropFuture? || a.DropConsumer? || a.CompleteCheck?
  }

  lemma CheckFaults(s: State, a: Action)
    requires Enabled(s, a) && Checks(a)
    ensures Apply(s, a).core.fault <==> s.core.fault || Fails(s, a)
  {}

  lemma NoFaults(s: State, a: Action)
    requires Enabled(s, a) && !Frees(a) && !Checks(a)
    ensures Apply(s, a).core.fault == s.core.fault
  {}

  lemma FaultStep(s: State, a: Action)
    requires Enabled(s, a)
    ensures Apply(s, a).core.fault <==> s.core.fault || Fails(s, a)
  {
    if Frees(a) {
      FreeFaults(s, a);
    } else if Checks(a) {
      CheckFaults(s, a);
    } else {
      NoFaults(s, a);
    }
  }

  /** `fault`, which `StepsAreSound` says stays unset, is set exactly when an assertion has failed. */
  lemma {:induction false} FaultMeans(run: seq<State>, acts: seq<Action>, i: nat)
    requires IsRun(run, acts) && i < |run|
    ensures run[i].core.fault <==> exists k | 0 <= k < i :: Fails(run[k], acts[k])
  {
    if i > 0 {
      FaultMeans(run, acts, i - 1);
      StepOf(run, acts, i - 1);
      FaultStep(run[i - 1], acts[i - 1]);
    }
  }

  // Where the step goes, and in `path` too.
  function StepAfter(s: State, a: Action): Step {
    match a
    case MakeFuture => Future
    case SenderSection => if s.core.noFuture then Deleted else s.core.step
    case DropFuture => if s.core.data then s.core.step else NoFuture
    case DropConsumer => if s.core.data then s.core.step else NoFuture
    case _ => if Frees(a) then Deleted else s.core.step
  }

  lemma OtherStep(s: State, a: Action)
    requires Enabled(s, a) && !Frees(a)
    ensures Apply(s, a).core.step == StepAfter(s, a)
    ensures Apply(s, a).path == if StepAfter(s, a) == s.core.step then s.path else s.path + [StepAfter(s, a)]
  {}

  lemma StepStep(s: State, a: Action)
    requires Enabled(s, a)
    ensures Apply(s, a).core.step == StepAfter(s, a)
    ensures Apply(s, a).path == if StepAfter(s, a) == s.core.step then s.path else s.path + [StepAfter(s, a)]
  {
    if Frees(a) { FreeFaults(s, a); } else { OtherStep(s, a); }
  }

  /** `path`, of which `StepsAreSound` speaks, holds every value that the step has had. */
  lemma {:induction false} PathMeans(run: seq<State>, acts: seq<Action>, i: nat)
    requires IsRun(run, acts) && i < |run|
    ensures run[i].path != [] && run[i].path[|run[i].path| - 1] == run[i].core.step
    ensures forall k | 0 <= k < i :: run[k].core.step in run[i].path
  {
    if i > 0 {
      PathMeans(run, acts, i - 1);
      StepOf(run, acts, i - 1);
      StepStep(run[i - 1], acts[i - 1]);
    }
  }
}

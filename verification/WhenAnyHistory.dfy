/**
 What the state of a `when_any` operation says about the past: who requested the inner stop, whether `start` goes on,
 how a child's notification proceeds, when the callback runs, and that something can always be done towards the
 completion.
 */
module WhenAnyHistory {
  import opened Options
  import opened WhenAny

  lemma StepOf(run: seq<State>, acts: seq<Action>, i: nat)
    requires IsRun(run, acts) && i < |acts|
    ensures Enabled(run[i], acts[i]) && run[i + 1] == Apply(run[i], acts[i])
  {}

  // ---------------------------------------------------------------- what each side changes

  lemma OuterFrame(s: State, k: OuterStep)
    requires OuterEnabled(s, k)
    ensures var s' := OuterApply(s, k);
            && s'.children == s.children && s'.phase == s.phase && s'.log == s.log && s'.threw == s.threw
            && (s'.core.stop <==> s.core.stop || k.Begin?) && (s'.outer <==> s.outer || k.StopOuter?)
            && (s'.destroyed <==> s.destroyed || k.Destroy?)
            && s'.cb == (if k.Begin? then Begun else if k.End? then Over else s.cb)
  {}

  lemma StartFrame(s: State, k: StartStep)
    requires StartEnabled(s, k)
    ensures var s' := StartApply(s, k);
            && s'.log == s.log && s'.threw == s.threw && s'.outer == s.outer && s'.destroyed == s.destroyed
            && (s'.core.stop <==> s.core.stop || (k.Arm? && s.outer))
            && s'.cb == (if k.Arm? && s.outer then Over else s.cb)
            && s'.children ==
               if k.StartNext? && s.phase.next < |s.children| then s.children[s.phase.next := Running] else s.children
  {}

  // The child's steps up to the decrement.
  predicate Early(k: ChildStep) { k.Notify? || k.Emplace? || k.StopBegin? || k.StopEnd? }

  predicate Kept(s: State, c: nat, k: ChildStep, s': State)
    requires ChildEnabled(s, c, k)
  {
    && s'.phase == s.phase && s'.outer == s.outer && s'.destroyed == s.destroyed && s'.cb == s.cb
    && s'.children == s.children[c := Next(s, c, k)]
  }

  lemma EarlyKeeps(s: State, c: nat, k: ChildStep)
    requires ChildEnabled(s, c, k) && Early(k)
    ensures Kept(s, c, k, ChildApply(s, c, k))
  {}

  lemma LateKeeps(s: State, c: nat, k: ChildStep)
    requires ChildEnabled(s, c, k) && !Early(k)
    ensures Kept(s, c, k, ChildApply(s, c, k))
  {}

  lemma ChildStops(s: State, c: nat, k: ChildStep)
    requires ChildEnabled(s, c, k)
    ensures ChildApply(s, c, k).core.stop <==> s.core.stop || k.StopBegin?
  {}

  lemma NotifyLogs(s: State, c: nat, signal: Signal, inline: bool)
    requires ChildEnabled(s, c, Notify(signal, inline))
    ensures ChildApply(s, c, Notify(signal, inline)).log == s.log + [signal]
  {}

  lemma OthersLogNothing(s: State, c: nat, k: ChildStep)
    requires ChildEnabled(s, c, k) && !k.Notify?
    ensures ChildApply(s, c, k).log == s.log
  {}

  lemma ChildThrows(s: State, c: nat, k: ChildStep)
    requires ChildEnabled(s, c, k)
    ensures ChildApply(s, c, k).threw == if k.Emplace? then k.throws else s.threw
  {}

  lemma ChildFrame(s: State, c: nat, k: ChildStep)
    requires ChildEnabled(s, c, k)
    ensures var s' := ChildApply(s, c, k);
            && s'.phase == s.phase && s'.outer == s.outer && s'.destroyed == s.destroyed && s'.cb == s.cb
            && s'.children == s.children[c := Next(s, c, k)]
            && (s'.core.stop <==> s.core.stop || k.StopBegin?)
            && s'.log == s.log + (if k.Notify? then [k.signal] else [])
            && s'.threw == (if k.Emplace? then k.throws else s.threw)
  {
    if Early(k) { EarlyKeeps(s, c, k); } else { LateKeeps(s, c, k); }
    ChildStops(s, c, k);
    if k.Notify? { NotifyLogs(s, c, k.signal, k.inline); } else { OthersLogNothing(s, c, k); }
    ChildThrows(s, c, k);
  }

  // ---------------------------------------------------------------- the inner stop

  predicate IsStopBegin(a: Action) { a.OfChild? && a.child.StopBegin? }

  // The winner's request, the callback, and the callback that is called while it is being registered.
  predicate Stops(s: State, a: Action) {
    IsStopBegin(a) || a == OfOuter(Begin) || (a == OfStart(Arm) && s.outer)
  }

  lemma StopStep(s: State, a: Action)
    requires Enabled(s, a)
    ensures Apply(s, a).core.stop <==> s.core.stop || Stops(s, a)
    ensures Apply(s, a).outer <==> s.outer || a == OfOuter(StopOuter)
    ensures Apply(s, a).destroyed <==> s.destroyed || a == OfOuter(Destroy)
  {
    match a
    case OfOuter(k) => OuterFrame(s, k);
    case OfStart(k) => StartFrame(s, k);
    case OfChild(c, k) => ChildFrame(s, c, k);
  }

  // Some action before the `i`-th requested the inner stop.
  ghost predicate SomeStop(run: seq<State>, acts: seq<Action>, i: nat)
    requires i <= |acts| < |run|
  {
    exists k | 0 <= k < i :: Stops(run[k], acts[k])
  }

  lemma StopAt(run: seq<State>, acts: seq<Action>, i: nat)
    requires IsRun(run, acts) && i < |acts|
    ensures run[i + 1].core.stop <==> run[i].core.stop || Stops(run[i], acts[i])
  {
    StepOf(run, acts, i);
    StopStep(run[i], acts[i]);
  }

  lemma {:induction false} StopSince(run: seq<State>, acts: seq<Action>, i: nat)
    requires i <= |acts| < |run| && !run[0].core.stop
    requires forall k | 0 <= k < |acts| :: run[k + 1].core.stop <==> run[k].core.stop || Stops(run[k], acts[k])
    ensures run[i].core.stop <==> SomeStop(run, acts, i)
  {
    if i > 0 {
      StopSince(run, acts, i - 1);
      assert SomeStop(run, acts, i) <==> SomeStop(run, acts, i - 1) || Stops(run[i - 1], acts[i - 1]);
    }
  }

  /** The children are told to stop exactly from the winner's request, or the receiver's, on. */
  lemma StopMeans(run: seq<State>, acts: seq<Action>, i: nat)
    requires IsRun(run, acts) && i < |run|
    ensures run[i].core.stop <==> SomeStop(run, acts, i)
  {
    forall k | 0 <= k < |acts|
      ensures run[k + 1].core.stop <==> run[k].core.stop || Stops(run[k], acts[k])
    {
      StopAt(run, acts, k);
    }
    StopSince(run, acts, i);
  }

  ghost predicate Has(acts: seq<Action>, i: nat, a: Action)
    requires i <= |acts|
  {
    exists k | 0 <= k < i :: acts[k] == a
  }

  lemma HasStep(acts: seq<Action>, i: nat, a: Action)
    requires 0 < i <= |acts|
    ensures Has(acts, i, a) <==> Has(acts, i - 1, a) || acts[i - 1] == a
  {}

  lemma {:induction false} OuterMeans(run: seq<State>, acts: seq<Action>, i: nat)
    requires IsRun(run, acts) && i < |run|
    ensures run[i].outer <==> run[0].outer || Has(acts, i, OfOuter(StopOuter))
    ensures run[i].destroyed <==> Has(acts, i, OfOuter(Destroy))
  {
    if i > 0 {
      OuterMeans(run, acts, i - 1);
      StepOf(run, acts, i - 1);
      StopStep(run[i - 1], acts[i - 1]);
      HasStep(acts, i, OfOuter(StopOuter));
      HasStep(acts, i, OfOuter(Destroy));
    }
  }

  /** The operation is destroyed at most once, after its completion. */
  lemma DestroyedOnce(run: seq<State>, acts: seq<Action>, k: nat)
    requires IsRun(run, acts) && k < |acts| && acts[k] == OfOuter(Destroy)
    ensures run[k].sent != [] && !Has(acts, k, OfOuter(Destroy))
  {
    StepOf(run, acts, k);
    OuterMeans(run, acts, k);
  }

  /** `start` gives up exactly if a stop was requested of the receiver and its callback has been called. */
  lemma RefusedMeans(run: seq<State>, acts: seq<Action>, k: nat)
    requires IsRun(run, acts) && k < |acts| && acts[k] == OfStart(Check)
    ensures run[k + 1].phase.Refused? <==> SomeStop(run, acts, k)
    ensures run[k + 1].phase.Refused? || run[k + 1].phase == Starting(0)
    ensures run[k + 1].phase.Refused? ==> run[k + 1].sent == [Sent(Halted)]
  {
    StepOf(run, acts, k);
    StopMeans(run, acts, k);
    RunInv(run, acts, k);
    assert ChildOk(run[k], 0);
    NobodyClosed(run[k]);
  }

  // ---------------------------------------------------------------- starting the children

  function Starts(acts: seq<Action>, i: nat): nat
    requires i <= |acts|
  {
    if i == 0 then 0 else Starts(acts, i - 1) + if acts[i - 1] == OfStart(StartNext) then 1 else 0
  }

  // How far `start` has come: the callback is registered, then the stop bit read, then each child started.
  ghost predicate PhaseBy(acts: seq<Action>, i: nat, n: nat, p: Phase)
    requires i <= |acts|
  {
    && (Has(acts, i, OfStart(Arm)) <==> !p.Connected?)
    && (Has(acts, i, OfStart(Check)) <==> !p.Connected? && !p.Armed?)
    && (p.Refused? ==> Starts(acts, i) == 0) && (p.Starting? ==> p.next == Starts(acts, i))
    && (p.Started? ==> Starts(acts, i) == n)
  }

  lemma PhaseStep(s: State, a: Action)
    requires Enabled(s, a)
    ensures |Apply(s, a).children| == |s.children|
    ensures !a.OfStart? ==> Apply(s, a).phase == s.phase
    ensures a == OfStart(Arm) ==> s.phase.Connected? && Apply(s, a).phase.Armed?
    ensures a == OfStart(Check) ==> s.phase.Armed? && (Apply(s, a).phase.Refused? || Apply(s, a).phase == Starting(0))
    ensures a == OfStart(StartNext) ==> s.phase.Starting? && s.phase.next < |s.children|
    ensures a == OfStart(StartNext) ==>
              Apply(s, a).phase == if s.phase.next + 1 == |s.children| then Started else Starting(s.phase.next + 1)
    ensures a == OfStart(StartNext) ==> Apply(s, a).children == s.children[s.phase.next := Running]
  {
    match a
    case OfOuter(k) => OuterFrame(s, k);
    case OfStart(k) => StartFrame(s, k);
    case OfChild(c, k) => ChildFrame(s, c, k);
  }

  ghost predicate PhaseOf(acts: seq<Action>, i: nat, s: State)
    requires i <= |acts|
  {
    && PhaseBy(acts, i, |s.children|, s.phase) && Starts(acts, i) <= |s.children|
    && (BeforeChildren(s.phase) ==> Starts(acts, i) == 0)
  }

  lemma PhaseNext(acts: seq<Action>, i: nat, s: State)
    requires i < |acts| && |s.children| > 0 && PhaseOf(acts, i, s) && Enabled(s, acts[i])
    ensures PhaseOf(acts, i + 1, Apply(s, acts[i]))
  {
    PhaseStep(s, acts[i]);
    HasStep(acts, i + 1, OfStart(Arm));
    HasStep(acts, i + 1, OfStart(Check));
  }

  /** `start` registers the callback, then looks at the stop bit once, and then starts the children in order. */
  lemma {:induction false} PhaseMeans(run: seq<State>, acts: seq<Action>, i: nat)
    requires IsRun(run, acts) && i < |run|
    ensures |run[i].children| == |run[0].children| > 0
    ensures PhaseOf(acts, i, run[i])
  {
    if i > 0 {
      PhaseMeans(run, acts, i - 1);
      StepOf(run, acts, i - 1);
      PhaseStep(run[i - 1], acts[i - 1]);
      PhaseNext(acts, i - 1, run[i - 1]);
    }
  }

  /** Child `c` is started by the `c`-th start of a child. */
  lemma StartedMeans(run: seq<State>, acts: seq<Action>, i: nat, c: nat)
    requires IsRun(run, acts) && i < |run| && c < |run[i].children|
    ensures run[i].children[c].Unstarted? <==> Starts(acts, i) <= c
  {
    RunInv(run, acts, i);
    PhaseMeans(run, acts, i);
    assert ChildOk(run[i], c);
  }

  // ---------------------------------------------------------------- the notification of a child

  function Notified(acts: seq<Action>, i: nat): seq<Signal>
    requires i <= |acts|
  {
    if i == 0 then [] else
      Notified(acts, i - 1) +
      if acts[i - 1].OfChild? && acts[i - 1].child.Notify? then [acts[i - 1].child.signal] else []
  }

  predicate IsEmplace(a: Action, throws: bool) { a.OfChild? && a.child == Emplace(throws) }

  lemma LogStep(s: State, a: Action)
    requires Enabled(s, a)
    ensures Apply(s, a).log == s.log + if a.OfChild? && a.child.Notify? then [a.child.signal] else []
    ensures Apply(s, a).threw == if a.OfChild? && a.child.Emplace? then a.child.throws else s.threw
  {
    match a
    case OfOuter(k) => OuterFrame(s, k);
    case OfStart(k) => StartFrame(s, k);
    case OfChild(c, k) => ChildFrame(s, c, k);
  }

  /** `log`, of which `LastSendsFirst` speaks, holds the signals in the order of the notifications. */
  lemma {:induction false} LogMeans(run: seq<State>, acts: seq<Action>, i: nat)
    requires IsRun(run, acts) && i < |run|
    ensures run[i].log == Notified(acts, i)
  {
    if i > 0 {
      LogMeans(run, acts, i - 1);
      StepOf(run, acts, i - 1);
      LogStep(run[i - 1], acts[i - 1]);
    }
  }

  ghost predicate SomeThrow(acts: seq<Action>, i: nat)
    requires i <= |acts|
  {
    exists k | 0 <= k < i :: IsEmplace(acts[k], true)
  }

  lemma ChildStores(s: State, c: nat, k: ChildStep)
    requires ChildEnabled(s, c, k)
    ensures ChildApply(s, c, k).core.result.Some? <==> s.core.result.Some? || k.Emplace?
  {}

  lemma StartStoresNothing(s: State, k: StartStep)
    requires StartEnabled(s, k)
    ensures StartApply(s, k).core.result == s.core.result
  {}

  lemma StoreStep(s: State, a: Action)
    requires Enabled(s, a)
    ensures Apply(s, a).core.result.Some? <==> s.core.result.Some? || (a.OfChild? && a.child.Emplace?)
  {
    match a
    case OfOuter(_) =>
    case OfStart(k) => StartStoresNothing(s, k);
    case OfChild(c, k) => ChildStores(s, c, k);
  }

  lemma StoresOnce(s: State, a: Action)
    requires Inv(s) && Enabled(s, a) && a.OfChild? && a.child.Emplace?
    ensures s.core.result == None
  {
    assert ChildOk(s, a.i);
  }

  lemma {:induction false} ThrowMeans(run: seq<State>, acts: seq<Action>, i: nat)
    requires IsRun(run, acts) && i < |run|
    ensures run[i].threw <==> SomeThrow(acts, i)
    ensures run[i].threw ==> run[i].core.result.Some?
  {
    if i == 0 {
      RunInv(run, acts, 0);
    } else {
      var a := acts[i - 1];
      ThrowMeans(run, acts, i - 1);
      RunInv(run, acts, i - 1);
      StepOf(run, acts, i - 1);
      LogStep(run[i - 1], a);
      StoreStep(run[i - 1], a);
      if a.OfChild? && a.child.Emplace? { StoresOnce(run[i - 1], a); }
      assert SomeThrow(acts, i) <==> SomeThrow(acts, i - 1) || IsEmplace(a, true);
    }
  }

  /** What the completion carries: stopped if the receiver has been; else the exception if copying the first
      notification's arguments threw; else that notification itself. */
  lemma SendsMean(run: seq<State>, acts: seq<Action>, k: nat)
    requires IsRun(run, acts) && k < |acts| && acts[k].OfChild? && acts[k].child.Complete?
    ensures Notified(acts, k) != []
    ensures run[k + 1].sent ==
            [Sent(if run[0].outer || Has(acts, k, OfOuter(StopOuter)) then Halted
                  else if SomeThrow(acts, k) then CopyThrew
                  else Notified(acts, k)[0])]
  {
    LastSendsFirst(run, acts, k);
    LogMeans(run, acts, k);
    ThrowMeans(run, acts, k);
    OuterMeans(run, acts, k);
  }

  predicate Own(a: Action, c: nat) { a.OfChild? && a.i == c }

  ghost predicate Consecutive(acts: seq<Action>, i: nat, j: nat, c: nat) {
    i < j < |acts| && Own(acts[i], c) && Own(acts[j], c) && forall k | i < k < j :: !Own(acts[k], c)
  }

  // `notify` and `complete` as they are written: `next` may come after `k`, taken in state `s`.
  ghost predicate Follows(s: State, c: nat, k: ChildStep, next: ChildStep) {
    match k
    case Notify(_, _) => if s.log == [] then next.Emplace? else next.Decrement?
    case Emplace(_) => next.StopBegin?
    case StopBegin => next.StopEnd?
    case StopEnd => next.Decrement?
    case Decrement => next.Disarm? && forall d | 0 <= d < |s.children| && d != c :: !Uncounted(s.children[d])
    case Disarm => next.Complete?
    case Complete => false
  }

  lemma OthersLeaveChild(s: State, a: Action, c: nat)
    requires Enabled(s, a) && !Own(a, c) && c < |s.children| && !s.children[c].Unstarted?
    ensures c < |Apply(s, a).children| && Apply(s, a).children[c] == s.children[c]
  {
    match a
    case OfOuter(k) => OuterFrame(s, k);
    case OfStart(k) => StartFrame(s, k);
    case OfChild(d, k) => ChildFrame(s, d, k);
  }

  lemma {:induction false} ChildStays(run: seq<State>, acts: seq<Action>, i: nat, j: nat, c: nat)
    requires IsRun(run, acts) && i <= j < |run| && c < |run[i].children| && !run[i].children[c].Unstarted?
    requires forall k | i <= k < j :: !Own(acts[k], c)
    ensures c < |run[j].children| && run[j].children[c] == run[i].children[c]
    decreases j - i
  {
    if i < j {
      ChildStays(run, acts, i, j - 1, c);
      StepOf(run, acts, j - 1);
      OthersLeaveChild(run[j - 1], acts[j - 1], c);
    }
  }

  lemma After(s: State, c: nat, k: ChildStep, s': State, next: ChildStep)
    requires ChildEnabled(s, c, k) && ChildEnabled(s', c, next) && s'.children[c] == ChildApply(s, c, k).children[c]
    requires s.core.emplaced <==> s.log != []
    requires s.core.count == 1 ==> forall d | 0 <= d < |s.children| && d != c :: !Uncounted(s.children[d])
    ensures Follows(s, c, k, next)
  {}

  lemma MovesOn(s: State, c: nat, k: ChildStep)
    requires ChildEnabled(s, c, k)
    ensures c < |ChildApply(s, c, k).children| && !ChildApply(s, c, k).children[c].Unstarted?
  {}

  /** The first child to notify stores its signal and requests the inner stop before it decrements the count, the
      others decrement it at once, and the one that does so when all others have disarms the callback and
      completes. */
  lemma ProgramOrder(run: seq<State>, acts: seq<Action>, i: nat, j: nat, c: nat)
    requires IsRun(run, acts) && Consecutive(acts, i, j, c)
    ensures Follows(run[i], c, acts[i].child, acts[j].child)
  {
    StepOf(run, acts, i);
    StepOf(run, acts, j);
    RunInv(run, acts, i);
    assert ChildOk(run[i], c);
    Actor(run[i], c);
    MovesOn(run[i], c, acts[i].child);
    ChildStays(run, acts, i + 1, j, c);
    After(run[i], c, acts[i].child, run[j], acts[j].child);
  }

  /** And its notification comes first. */
  lemma FirstStep(run: seq<State>, acts: seq<Action>, j: nat, c: nat)
    requires IsRun(run, acts) && j < |acts| && Own(acts[j], c) && forall k | 0 <= k < j :: !Own(acts[k], c)
    ensures acts[j].child.Notify?
  {
    StepOf(run, acts, j);
    NotYet(run, acts, j, c);
  }

  lemma {:induction false} NotYet(run: seq<State>, acts: seq<Action>, j: nat, c: nat)
    requires IsRun(run, acts) && j < |run| && forall k | 0 <= k < j :: !Own(acts[k], c)
    ensures |run[j].children| == |run[0].children|
    ensures c < |run[j].children| ==> run[j].children[c].Unstarted? || run[j].children[c].Running?
  {
    if j > 0 {
      NotYet(run, acts, j - 1, c);
      StepOf(run, acts, j - 1);
      PhaseStep(run[j - 1], acts[j - 1]);
      if c < |run[j].children| { OthersStart(run[j - 1], acts[j - 1], c); }
    }
  }

  lemma OthersStart(s: State, a: Action, c: nat)
    requires Enabled(s, a) && !Own(a, c) && c < |s.children|
    ensures c < |Apply(s, a).children| && (Apply(s, a).children[c] == s.children[c] || Apply(s, a).children[c].Running?)
  {
    match a
    case OfOuter(k) => OuterFrame(s, k);
    case OfStart(k) => StartFrame(s, k);
    case OfChild(d, k) => ChildFrame(s, d, k);
  }

  // ---------------------------------------------------------------- the callback

  function Called(cb: Callback, s: State, a: Action): Callback {
    if a == OfOuter(Begin) then Begun
    else if a == OfOuter(End) || (a == OfStart(Arm) && s.outer) then Over
    else cb
  }

  lemma CallbackStep(s: State, a: Action)
    requires Enabled(s, a)
    ensures Apply(s, a).cb == Called(s.cb, s, a)
    ensures a == OfOuter(Begin) ==> s.cb.Waiting? && s.outer && s.armed
    ensures a == OfOuter(End) ==> s.cb.Begun? && s.inside == None
    ensures s.cb.Begun? ==> a != OfOuter(Begin)
  {
    match a
    case OfOuter(k) => OuterFrame(s, k);
    case OfStart(k) => StartFrame(s, k);
    case OfChild(c, k) => ChildFrame(s, c, k);
  }

  // Some action before the `i`-th registered the callback after the receiver had been stopped.
  ghost predicate SomeLateArm(run: seq<State>, acts: seq<Action>, i: nat)
    requires i <= |acts| < |run|
  {
    exists k | 0 <= k < i :: acts[k] == OfStart(Arm) && run[k].outer
  }

  // Where the callback is, by what it did.
  ghost predicate CallbackBy(run: seq<State>, acts: seq<Action>, i: nat)
    requires i <= |acts| < |run|
  {
    && (run[i].cb.Begun? <==> Has(acts, i, OfOuter(Begin)) && !Has(acts, i, OfOuter(End)))
    && (run[i].cb.Over? <==> Has(acts, i, OfOuter(End)) || SomeLateArm(run, acts, i))
    && (Has(acts, i, OfOuter(End)) ==> Has(acts, i, OfOuter(Begin)))
    && !(Has(acts, i, OfOuter(Begin)) && SomeLateArm(run, acts, i))
  }

  lemma CallbackNext(run: seq<State>, acts: seq<Action>, i: nat)
    requires i < |acts| < |run| && CallbackBy(run, acts, i) && PhaseOf(acts, i, run[i]) && PhaseOk(run[i])
    requires Enabled(run[i], acts[i]) && run[i + 1] == Apply(run[i], acts[i])
    ensures CallbackBy(run, acts, i + 1)
  {
    CallbackStep(run[i], acts[i]);
    PhaseStep(run[i], acts[i]);
    HasStep(acts, i + 1, OfOuter(Begin));
    HasStep(acts, i + 1, OfOuter(End));
    assert SomeLateArm(run, acts, i + 1) <==>
           SomeLateArm(run, acts, i) || (acts[i] == OfStart(Arm) && run[i].outer);
  }

  lemma PhaseOkRun(run: seq<State>, acts: seq<Action>, i: nat)
    requires IsRun(run, acts) && i < |run|
    ensures PhaseOk(run[i])
  {
    RunInv(run, acts, i);
  }

  lemma CallbackStarts(run: seq<State>, acts: seq<Action>)
    requires IsRun(run, acts)
    ensures CallbackBy(run, acts, 0)
  {}

  /** The callback is called once, after it was registered: in the registration if the receiver had been stopped
      already, and otherwise from its beginning to its end. */
  lemma {:induction false} CallbackMeans(run: seq<State>, acts: seq<Action>, i: nat)
    requires IsRun(run, acts) && i < |run|
    ensures CallbackBy(run, acts, i)
  {
    if i == 0 {
      CallbackStarts(run, acts);
    } else {
      CallbackMeans(run, acts, i - 1);
      PhaseOkRun(run, acts, i - 1);
      PhaseMeans(run, acts, i - 1);
      StepOf(run, acts, i - 1);
      CallbackNext(run, acts, i - 1);
    }
  }

  lemma CalledOnce(run: seq<State>, acts: seq<Action>, i: nat)
    requires IsRun(run, acts) && i < |acts| && acts[i] == OfOuter(Begin)
    ensures !Has(acts, i, OfOuter(Begin)) && Has(acts, i, OfStart(Arm)) && run[i].outer
  {
    StepOf(run, acts, i);
    CallbackStep(run[i], acts[i]);
    PhaseOkRun(run, acts, i);
    PhaseMeans(run, acts, i);
    CallbackMeans(run, acts, i);
  }

  // ---------------------------------------------------------------- inside the callback

  // What an action makes of `inside`.
  function InsideAfter(s: State, a: Action): Option<nat> {
    match a
    case OfChild(c, Notify(_, true)) => Some(c)
    case OfChild(c, k) => if s.inside == Some(c) && c < |s.children| && Ends(s, k) then None else s.inside
    case _ => s.inside
  }

  // The notification ends: with the completion, or with a decrement that is not the last.
  predicate Ends(s: State, k: ChildStep) { k.Complete? || (k.Decrement? && s.core.count != 1) }

  /** A child gives its notification inside the callback from its first step on, if it does, to its last. */
  lemma InsideMeans(run: seq<State>, acts: seq<Action>, i: nat)
    requires IsRun(run, acts) && i < |acts|
    ensures run[0].inside == None && run[i + 1].inside == InsideAfter(run[i], acts[i])
  {
    StepOf(run, acts, i);
    RunInv(run, acts, i);
    InsideStep(run[i], acts[i]);
  }

  lemma InsideByChild(s: State, c: nat, k: ChildStep)
    requires ChildEnabled(s, c, k)
    ensures ChildApply(s, c, k).inside == InsideAfter(s, OfChild(c, k))
  {}

  lemma InsideStep(s: State, a: Action)
    requires Enabled(s, a) && Inv(s)
    ensures Apply(s, a).inside == InsideAfter(s, a)
  {
    if a.OfChild? { InsideByChild(s, a.i, a.child); }
  }

  // ---------------------------------------------------------------- no deadlock

  // The next step of a child that has been started.
  function NextOf(c: Child): ChildStep {
    match c
    case Winner(_) => Emplace(false)
    case Stopping => StopBegin
    case Within => StopEnd
    case Counting => Decrement
    case Last => Disarm
    case Sending => Complete
    case _ => Notify(Halted, false)
  }

  lemma ChildGoesOn(s: State, c: nat)
    requires Inv(s) && c < |s.children| && !s.children[c].Unstarted? && !s.children[c].Finished?
    ensures ChildEnabled(s, c, NextOf(s.children[c])) || OuterEnabled(s, End)
  {
    assert ChildOk(s, c);
    if s.children[c].Last? && s.inside.Some? { InsideIsLast(s, c); }
  }

  /** Until something is sent, `start`, a child or the callback can go on: a stop request is never needed. */
  lemma NeverStuck(run: seq<State>, acts: seq<Action>, i: nat)
    requires IsRun(run, acts) && i < |run| && run[i].sent == []
    ensures exists a :: Enabled(run[i], a) && a != OfOuter(StopOuter) && a != OfOuter(Begin)
  {
    RunInv(run, acts, i);
    var s := run[i];
    match s.phase
    case Connected => assert Enabled(s, OfStart(Arm));
    case Armed => assert Enabled(s, OfStart(Check));
    case Starting(next) =>
      assert ChildOk(s, next);
      assert Enabled(s, OfStart(StartNext));
    case Refused =>
    case Started =>
      var c := Unfinished(s);
      ChildGoesOn(s, c);
      assert Enabled(s, OfChild(c, NextOf(s.children[c]))) || Enabled(s, OfOuter(End));
  }

  lemma Unfinished(s: State) returns (c: nat)
    requires Inv(s) && s.phase.Started? && s.sent == []
    ensures c < |s.children| && !s.children[c].Unstarted? && !s.children[c].Finished?
  {
    if s.core.count == 0 {
      c :| c < |s.children| && Closing(s.children[c]);
    } else {
      assert Outstanding(s.children) != {};
      c :| c in Outstanding(s.children);
    }
    assert ChildOk(s, c);
  }
}

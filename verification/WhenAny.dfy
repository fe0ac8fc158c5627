/**
 `when_any`: the first child to finish provides the result, the last one sends it.

 Any number of children, each on its own thread, started one after the other while those already started
 run; the receiver's stop token may be triggered at any moment, and its callback takes time: it sets the
 inner stop bit at its beginning, and works on the operation's stop source until its end. A child may give
 its notification from inside that callback, on the callback's thread.
 */
module WhenAny {
  import opened Options

  datatype Signal = Value(v: nat) | Failed(e: nat) | Halted | CopyThrew

  // What the operation sends: a signal, or the visit of a result that holds nothing.
  datatype Completion = Sent(signal: Signal) | Valueless

  // What is stored when copying the arguments of `signal` throws or does not.
  function Stored(signal: Signal, throws: bool): Signal { if throws then CopyThrew else signal }

  // ---------------------------------------------------------------- the shared fields

  datatype Core = Core(emplaced: bool, count: int, result: Option<Signal>, stop: bool) {
    function Won(): (Core, bool) { (this.(emplaced := true), !emplaced) }

    function Emplaced(signal: Signal, throws: bool): Core { this.(result := Some(Stored(signal, throws))) }

    function Stopped(): Core { this.(stop := true) }

    function Decremented(): (Core, bool) { (this.(count := count - 1), count == 1) }

    function Send(outer: bool): Completion {
      if outer then Sent(Halted) else if result.Some? then Sent(result.value) else Valueless
    }
  }

  // ---------------------------------------------------------------- the steps

  datatype Child =
    | Unstarted | Running
    | Winner(signal: Signal)          // after a successful exchange
    | Stopping | Within               // before and inside `__stop_source_.request_stop()`
    | Counting                        // before `__count_.fetch_sub`
    | Last                            // it took the count to zero
    | Sending                         // after `__on_stop_.reset()`
    | Finished

  // `Refused`: `start` found a stop request and completed without starting a child.
  datatype Phase = Connected | Armed | Starting(next: nat) | Started | Refused

  // The callback on the receiver's token.
  datatype Callback = Waiting | Begun | Over

  // `armed`: `__on_stop_` holds a callback. `inside`: the child whose notification runs in the callback.
  // `log`, `threw` and `inlined` are history: the children's signals in the order of their exchanges, whether
  // storing the result threw, and whether the completion was sent from inside the callback.
  datatype State = State(core: Core, children: seq<Child>, phase: Phase, outer: bool, armed: bool, cb: Callback,
    inside: Option<nat>, sent: seq<Completion>, destroyed: bool, log: seq<Signal>, threw: bool, inlined: bool)

  datatype OuterStep = StopOuter | Begin | End | Destroy

  datatype StartStep = Arm | Check | StartNext

  datatype ChildStep =
    | Notify(signal: Signal, inline: bool) | Emplace(throws: bool) | StopBegin | StopEnd | Decrement | Disarm | Complete

  datatype Action = OfOuter(outer: OuterStep) | OfStart(start: StartStep) | OfChild(i: nat, child: ChildStep)

  // Destroying `__on_stop_` waits for the callback, except on the callback's own thread.
  predicate Waits(s: State) { s.armed && s.cb.Begun? }

  predicate OuterEnabled(s: State, k: OuterStep) {
    match k
    case StopOuter => !s.outer
    case Begin => s.outer && s.armed && s.cb.Waiting?
    case End => s.cb.Begun? && s.inside == None
    case Destroy => s.sent != [] && !s.destroyed && !Waits(s)
  }

  function OuterApply(s: State, k: OuterStep): State
    requires OuterEnabled(s, k)
  {
    match k
    case StopOuter => s.(outer := true)
    case Begin => s.(core := s.core.Stopped(), cb := Begun)
    case End => s.(cb := Over)
    case Destroy => s.(destroyed := true, armed := false)
  }

  predicate StartEnabled(s: State, k: StartStep) {
    match k
    case Arm => s.phase == Connected
    case Check => s.phase == Armed
    case StartNext => s.phase.Starting? && s.phase.next < |s.children| && s.children[s.phase.next].Unstarted?
  }

  function StartApply(s: State, k: StartStep): State
    requires StartEnabled(s, k)
  {
    match k
    case Arm =>
      if s.outer then s.(phase := Armed, armed := true, cb := Over, core := s.core.Stopped())
      else s.(phase := Armed, armed := true)
    case Check => if s.core.stop then s.(phase := Refused, sent := s.sent + [Sent(Halted)])
      else s.(phase := Starting(0))
    case StartNext =>
      s.(children := s.children[s.phase.next := Running],
         phase := if s.phase.next + 1 == |s.children| then Started else Starting(s.phase.next + 1))
  }

  predicate ChildEnabled(s: State, i: nat, k: ChildStep) {
    i < |s.children| &&
    match k
    case Notify(_, inline) => s.children[i].Running? && (inline ==> s.cb.Begun? && s.inside == None)
    case Emplace(_) => s.children[i].Winner?
    case StopBegin => s.children[i].Stopping?
    case StopEnd => s.children[i].Within?
    case Decrement => s.children[i].Counting?
    case Disarm => s.children[i].Last? && (Waits(s) ==> s.inside == Some(i))
    case Complete => s.children[i].Sending?
  }

  // The child's next position.
  function Next(s: State, i: nat, k: ChildStep): Child
    requires ChildEnabled(s, i, k)
  {
    match k
    case Notify(signal, _) => if s.core.Won().1 then Winner(signal) else Counting
    case Emplace(_) => Stopping
    case StopBegin => Within
    case StopEnd => Counting
    case Decrement => if s.core.Decremented().1 then Last else Finished
    case Disarm => Sending
    case Complete => Finished
  }

  function ChildApply(s: State, i: nat, k: ChildStep): State
    requires ChildEnabled(s, i, k)
  {
    var c := Next(s, i, k);
    var s' := s.(children := s.children[i := c],
      inside := if c.Finished? && s.inside == Some(i) then None else s.inside);
    match k
    case Notify(signal, inline) =>
      s'.(core := s.core.Won().0, log := s.log + [signal], inside := if inline then Some(i) else s.inside)
    case Emplace(throws) => s'.(core := s.core.Emplaced(s.children[i].signal, throws), threw := throws)
    case StopBegin => s'.(core := s.core.Stopped())
    case StopEnd => s'
    case Decrement => s'.(core := s.core.Decremented().0)
    case Disarm => s'.(armed := false)
    case Complete => s'.(sent := s.sent + [s.core.Send(s.outer)], inlined := s.inside == Some(i))
  }

  predicate Enabled(s: State, a: Action) {
    match a
    case OfOuter(k) => OuterEnabled(s, k)
    case OfStart(k) => StartEnabled(s, k)
    case OfChild(i, k) => ChildEnabled(s, i, k)
  }

  function Apply(s: State, a: Action): State
    requires Enabled(s, a)
  {
    match a
    case OfOuter(k) => OuterApply(s, k)
    case OfStart(k) => StartApply(s, k)
    case OfChild(i, k) => ChildApply(s, i, k)
  }

  // Does the action read or write the operation?
  predicate Touches(a: Action) { a != OfOuter(StopOuter) && a != OfOuter(Destroy) }

  predicate Init(s: State) {
    && |s.children| > 0 && s.core == Core(false, |s.children|, None, false)
    && (forall i | 0 <= i < |s.children| :: s.children[i] == Unstarted)
    && s.phase == Connected && !s.armed && s.cb == Waiting && s.inside == None
    && s.sent == [] && !s.destroyed && s.log == [] && !s.threw && !s.inlined
  }

  // ---------------------------------------------------------------- the invariant

  predicate Uncounted(c: Child) { !c.Last? && !c.Sending? && !c.Finished? }

  predicate Closing(c: Child) { c.Last? || c.Sending? }

  ghost function Outstanding(cs: seq<Child>): set<nat> { set i | 0 <= i < |cs| && Uncounted(cs[i]) }

  predicate BeforeChildren(p: Phase) { p.Connected? || p.Armed? || p.Refused? }

  // What child `i` says about the shared fields.
  predicate ChildOk(s: State, i: nat)
    requires i < |s.children|
  {
    var c := s.children[i];
    && (c.Unstarted? <==> BeforeChildren(s.phase) || (s.phase.Starting? && i >= s.phase.next))
    && (c.Winner? ==> s.core.result == None && s.log != [] && s.log[0] == c.signal)
    && (c.Stopping? || c.Within? ==> s.core.result.Some?)
    && (Uncounted(c) || c.Finished? || s.core.count == 0)
    && (Closing(c) ==> s.sent == [])
    && (c.Last? ==> s.armed)
    && (c.Sending? ==> !s.armed && (s.cb.Begun? ==> s.inside == Some(i)))
    && (c.Finished? || c.Counting? || Closing(c) ==> s.core.emplaced)
    && (s.inside == Some(i) ==> !c.Unstarted? && !c.Running? && !c.Finished?)
  }

  // Only one child at a time holds the right to store, or to complete.
  predicate Apart(c: Child, d: Child) { !(c.Winner? && d.Winner?) && !(Closing(c) && Closing(d)) }

  ghost predicate SomeWinner(s: State) { exists i | 0 <= i < |s.children| :: s.children[i].Winner? }

  ghost predicate SomeClosing(s: State) { exists i | 0 <= i < |s.children| :: Closing(s.children[i]) }

  // The shared fields of the children, ...
  ghost predicate ResultOk(s: State) {
    && |s.children| > 0
    && s.core.count == |Outstanding(s.children)|
    && (s.core.emplaced <==> s.log != [])
    && (s.core.result.Some? ==> s.core.emplaced && s.core.result.value == Stored(s.log[0], s.threw))
    && (s.core.emplaced && s.core.result == None ==> SomeWinner(s))
    && (s.core.count == 0 && s.sent == [] ==> SomeClosing(s))
  }

  // ... of `start`, ...
  predicate PhaseOk(s: State) {
    && (s.phase.Connected? ==> !s.armed && !s.core.stop && s.cb.Waiting?)
    && (s.phase.Starting? ==> s.phase.next < |s.children|)
    && (s.phase.Armed? || (!s.phase.Connected? && s.sent == [] && s.core.count > 0) ==> s.armed)
    && (BeforeChildren(s.phase) ==> s.log == [] && s.inside == None && !s.inlined && (s.core.stop ==> !s.cb.Waiting?))
    && (s.phase.Refused? ==> s.sent == [Sent(Halted)] && !s.cb.Waiting?)
    && (s.sent == [] ==> !s.phase.Refused?)
  }

  // ... and of the callback and the completion.
  predicate CallbackOk(s: State) {
    && (s.inside.Some? ==> s.cb.Begun? && s.inside.value < |s.children|)
    && (s.sent != [] ==> |s.sent| == 1 && (s.phase.Refused? || s.core.count == 0))
    && (s.sent != [] && !s.phase.Refused? ==> !s.armed && s.inside == None && (s.cb.Begun? ==> s.inlined))
    && (s.phase.Refused? && !s.armed ==> s.destroyed)
    && (s.inlined ==> s.sent != [] && !s.cb.Waiting?)
    && (s.destroyed ==> s.sent != [] && !s.armed && (s.cb.Begun? ==> s.inlined))
  }

  ghost predicate Shared(s: State) { ResultOk(s) && PhaseOk(s) && CallbackOk(s) }

  ghost predicate Inv(s: State) {
    && Shared(s)
    && (forall i: nat | i < |s.children| :: ChildOk(s, i))
    && (forall i, j | 0 <= i < |s.children| && 0 <= j < |s.children| && i != j :: Apart(s.children[i], s.children[j]))
  }

  lemma NoneOutstanding(cs: seq<Child>, i: nat)
    requires i < |cs| && Uncounted(cs[i])
    ensures |Outstanding(cs)| > 0
    ensures |Outstanding(cs)| == 1 ==> forall j | 0 <= j < |cs| && j != i :: !Uncounted(cs[j])
  {
    assert i in Outstanding(cs);
    if |Outstanding(cs)| == 1 {
      assert |Outstanding(cs) - {i}| == 0;
      forall j | 0 <= j < |cs| && j != i ensures !Uncounted(cs[j]) {
        assert j !in Outstanding(cs) - {i};
      }
    }
  }

  lemma CountUpdate(cs: seq<Child>, i: nat, c: Child)
    requires i < |cs| && (Uncounted(c) ==> Uncounted(cs[i]))
    ensures |Outstanding(cs[i := c])| == |Outstanding(cs)| - if Uncounted(cs[i]) && !Uncounted(c) then 1 else 0
  {
    assert i in Outstanding(cs) <==> Uncounted(cs[i]);
    if Uncounted(c) || !Uncounted(cs[i]) {
      assert Outstanding(cs[i := c]) == Outstanding(cs);
    } else {
      assert Outstanding(cs[i := c]) == Outstanding(cs) - {i};
    }
  }

  // Before `start` hands out the first child every child is counted.
  lemma NobodyClosed(s: State)
    requires ResultOk(s) && ChildOk(s, 0) && (BeforeChildren(s.phase) || (s.phase.Starting? && s.phase.next == 0))
    ensures s.core.count > 0
  {
    NoneOutstanding(s.children, 0);
  }

  // ---------------------------------------------------------------- steps of the receiver's side

  lemma OuterStepInv(s: State, k: OuterStep)
    requires Inv(s) && OuterEnabled(s, k)
    ensures Inv(OuterApply(s, k))
  {
    var s' := OuterApply(s, k);
    assert s'.children == s.children;
    forall i: nat | i < |s'.children| ensures ChildOk(s', i) { assert ChildOk(s, i); }
  }

  // ---------------------------------------------------------------- steps of `start`

  lemma StartShared(s: State, k: StartStep)
    requires Shared(s) && StartEnabled(s, k) && ChildOk(s, 0)
    ensures Shared(StartApply(s, k))
  {
    var s' := StartApply(s, k);
    if k.StartNext? {
      CountUpdate(s.children, s.phase.next, Running);
      NoneOutstanding(s.children, s.phase.next);
      if SomeWinner(s) {
        var w :| 0 <= w < |s.children| && s.children[w].Winner?;
        assert s'.children[w].Winner?;
      }
    } else {
      NobodyClosed(s);
    }
  }

  lemma StartChildren(s: State, k: StartStep, i: nat)
    requires StartEnabled(s, k) && i < |s.children| && ChildOk(s, i) && (s.phase.Connected? ==> s.cb.Waiting?)
    requires s.core.count > 0
    ensures ChildOk(StartApply(s, k), i)
  {
  }

  lemma StartStepInv(s: State, k: StartStep)
    requires Inv(s) && StartEnabled(s, k)
    ensures Inv(StartApply(s, k))
  {
    var s' := StartApply(s, k);
    StartShared(s, k);
    assert ChildOk(s, 0);
    if k.StartNext? { NoneOutstanding(s.children, s.phase.next); } else { NobodyClosed(s); }
    forall i: nat | i < |s'.children| ensures ChildOk(s', i) { StartChildren(s, k, i); }
    forall i, j | 0 <= i < |s'.children| && 0 <= j < |s'.children| && i != j
      ensures Apart(s'.children[i], s'.children[j]) {
      assert Apart(s.children[i], s.children[j]);
    }
  }

  // ---------------------------------------------------------------- steps of the children

  // A child that acts has been started, and nothing was sent before.
  predicate ActorOk(s: State, i: nat)
    requires i < |s.children|
  {
    && ChildOk(s, i) && s.sent == [] && !s.destroyed && !s.inlined && !BeforeChildren(s.phase)
    && (if Uncounted(s.children[i]) then s.core.count > 0 else s.core.count == 0)
  }

  lemma Actor(s: State, i: nat)
    requires Shared(s) && i < |s.children| && !s.children[i].Finished? && !s.children[i].Unstarted? && ChildOk(s, i)
    ensures ActorOk(s, i)
    ensures s.core.count == 1 && Uncounted(s.children[i]) ==>
              forall j | 0 <= j < |s.children| && j != i :: !Uncounted(s.children[j])
  {
    if Uncounted(s.children[i]) { NoneOutstanding(s.children, i); }
  }

  // Whoever stores, and whoever completes, is still there after a step of another child.
  lemma WinnerStays(s: State, i: nat, k: ChildStep)
    requires ChildEnabled(s, i, k) && (s.core.emplaced && s.core.result == None ==> SomeWinner(s))
    ensures var s' := ChildApply(s, i, k); s'.core.emplaced && s'.core.result == None ==> SomeWinner(s')
  {
    var s' := ChildApply(s, i, k);
    if k.Notify? {
      assert s'.core.result == None && !s.core.emplaced ==> s'.children[i].Winner?;
    }
    if s.core.emplaced && s.core.result == None {
      var w :| 0 <= w < |s.children| && s.children[w].Winner?;
      assert s'.children[w].Winner? || s'.core.result.Some?;
    }
  }

  lemma CloserStays(s: State, i: nat, k: ChildStep)
    requires ChildEnabled(s, i, k) && (s.core.count == 0 && s.sent == [] ==> SomeClosing(s))
    ensures var s' := ChildApply(s, i, k); s'.core.count == 0 && s'.sent == [] ==> SomeClosing(s')
  {
    var s' := ChildApply(s, i, k);
    if k.Decrement? {
      assert s'.core.count == 0 ==> Closing(s'.children[i]);
    }
    if s.core.count == 0 && s.sent == [] {
      var w :| 0 <= w < |s.children| && Closing(s.children[w]);
      assert Closing(s'.children[w]) || s'.sent != [];
    }
  }

  lemma ChildResult(s: State, i: nat, k: ChildStep)
    requires ResultOk(s) && ChildEnabled(s, i, k) && ActorOk(s, i)
    ensures ResultOk(ChildApply(s, i, k))
  {
    CountUpdate(s.children, i, Next(s, i, k));
    WinnerStays(s, i, k);
    CloserStays(s, i, k);
  }

  lemma ChildShared(s: State, i: nat, k: ChildStep)
    requires PhaseOk(s) && CallbackOk(s) && ChildEnabled(s, i, k) && ActorOk(s, i)
    requires s.core.count == 0 && s.inside.Some? ==> s.inside == Some(i)
    ensures PhaseOk(ChildApply(s, i, k)) && CallbackOk(ChildApply(s, i, k))
  {
  }

  // The child that acts.
  lemma ActorStep(s: State, i: nat, k: ChildStep)
    requires ResultOk(s) && PhaseOk(s) && ChildEnabled(s, i, k) && ActorOk(s, i)
    ensures ChildOk(ChildApply(s, i, k), i)
  {
  }

  // Another child: what the step may change of the fields its invariant is about.
  predicate Harmless(s: State, s': State, j: nat) {
    && s'.phase == s.phase && s'.sent == s.sent && s'.cb == s.cb
    && (s.core.result.Some? ==> s'.core.result.Some?) && (s.core.emplaced ==> s'.core.emplaced)
    && (s.core.count == 0 ==> s'.core.count == 0)
    && (s.log != [] ==> s'.log != [] && s'.log[0] == s.log[0])
    && (s'.inside == Some(j) ==> s.inside == Some(j))
  }

  lemma OtherStep(s: State, i: nat, k: ChildStep, j: nat)
    requires ChildEnabled(s, i, k) && j < |s.children| && j != i && ChildOk(s, j) && ChildOk(s, i)
    requires Apart(s.children[i], s.children[j]) && (Closing(s.children[i]) ==> s.children[j].Finished?)
    requires Uncounted(s.children[i]) ==> s.core.count > 0
    requires s.core.count == 1 && k.Decrement? ==> !Uncounted(s.children[j])
    requires s.core.emplaced <==> s.log != []
    ensures ChildOk(ChildApply(s, i, k), j)
  {
    var s' := ChildApply(s, i, k);
    assert s'.children[j] == s.children[j];
    if !Closing(s.children[i]) { assert Harmless(s, s', j); }
  }

  lemma ApartStep(s: State, i: nat, k: ChildStep, j: nat)
    requires ChildEnabled(s, i, k) && ActorOk(s, i) && j < |s.children| && j != i && ChildOk(s, j)
    requires Apart(s.children[i], s.children[j]) && (s.core.emplaced <==> s.log != [])
    ensures Apart(Next(s, i, k), s.children[j])
  {
  }

  // When a child closes the others have finished, so nobody else is inside the callback.
  lemma OthersFinished(s: State, i: nat, j: nat)
    requires Inv(s) && i < |s.children| && j < |s.children| && Closing(s.children[i]) && i != j
    ensures s.children[j].Finished?
  {
    assert ChildOk(s, i) && Apart(s.children[i], s.children[j]);
    if Uncounted(s.children[j]) { NoneOutstanding(s.children, j); }
  }

  lemma InsideIsLast(s: State, i: nat)
    requires Inv(s) && i < |s.children| && Closing(s.children[i]) && s.inside.Some?
    ensures s.inside == Some(i)
  {
    assert ChildOk(s, s.inside.value);
    if s.inside != Some(i) { OthersFinished(s, i, s.inside.value); }
  }

  lemma ChildStepInv(s: State, i: nat, k: ChildStep)
    requires Inv(s) && ChildEnabled(s, i, k)
    ensures Inv(ChildApply(s, i, k))
  {
    var s' := ChildApply(s, i, k);
    assert ChildOk(s, i);
    Actor(s, i);
    if Closing(s.children[i]) && s.inside.Some? { InsideIsLast(s, i); }
    ChildResult(s, i, k);
    ChildShared(s, i, k);
    ActorStep(s, i, k);
    forall j: nat | j < |s.children| && j != i
      ensures ChildOk(s', j) && Apart(s'.children[i], s'.children[j])
    {
      assert ChildOk(s, j) && Apart(s.children[i], s.children[j]);
      if Closing(s.children[i]) { OthersFinished(s, i, j); }
      OtherStep(s, i, k, j);
      ApartStep(s, i, k, j);
    }
    forall j, m | 0 <= j < |s.children| && 0 <= m < |s.children| && j != m
      ensures Apart(s'.children[j], s'.children[m])
    {
      assert Apart(s.children[j], s.children[m]);
    }
  }

  /** Every step keeps the invariant. */
  lemma StepInv(s: State, a: Action)
    requires Inv(s) && Enabled(s, a)
    ensures Inv(Apply(s, a))
  {
    match a
    case OfOuter(k) => OuterStepInv(s, k);
    case OfStart(k) => StartStepInv(s, k);
    case OfChild(i, k) => ChildStepInv(s, i, k);
  }

  lemma InitInv(s: State)
    requires Init(s)
    ensures Inv(s)
  {
    AllOutstanding(s.children);
  }

  lemma {:induction false} AllOutstanding(cs: seq<Child>)
    requires forall i | 0 <= i < |cs| :: Uncounted(cs[i])
    ensures |Outstanding(cs)| == |cs|
  {
    if cs == [] {
      assert Outstanding(cs) == {};
    } else {
      AllOutstanding(cs[..|cs| - 1]);
      assert Outstanding(cs) == Outstanding(cs[..|cs| - 1]) + {|cs| - 1};
    }
  }

  /** Any interleaving. */
  ghost predicate IsRun(run: seq<State>, acts: seq<Action>) {
    && |run| == |acts| + 1 && Init(run[0])
    && forall i | 0 <= i < |acts| :: Enabled(run[i], acts[i]) && run[i + 1] == Apply(run[i], acts[i])
  }

  lemma {:induction false} RunInv(run: seq<State>, acts: seq<Action>, i: nat)
    requires IsRun(run, acts) && i < |run|
    ensures Inv(run[i])
  {
    if i == 0 {
      InitInv(run[0]);
    } else {
      RunInv(run, acts, i - 1);
      StepInv(run[i - 1], acts[i - 1]);
    }
  }

  // ---------------------------------------------------------------- what holds over whole runs

  /** At most one completion is ever sent, and exactly one once every child that was started has finished
      and `start` has returned. */
  lemma CompletesOnce(run: seq<State>, acts: seq<Action>, i: nat)
    requires IsRun(run, acts) && i < |run|
    ensures |run[i].sent| <= 1
    ensures run[i].phase.Refused? ==>
              run[i].sent == [Sent(Halted)] && forall k | 0 <= k < |run[i].children| :: run[i].children[k].Unstarted?
    ensures run[i].phase.Started? && (forall k | 0 <= k < |run[i].children| :: run[i].children[k].Finished?) ==>
              |run[i].sent| == 1
  {
    RunInv(run, acts, i);
    var s := run[i];
    forall k: nat | k < |s.children| && s.phase.Refused? ensures s.children[k].Unstarted? {
      assert ChildOk(s, k);
    }
    if forall k | 0 <= k < |s.children| :: s.children[k].Finished? {
      assert Outstanding(s.children) == {};
    }
  }

  /** A completion comes from a child only after every child has started and given its notification up to
      the decrement, and it carries the result of the first one to reach the exchange, or the exception
      thrown while storing that; it is stopped instead if by then the receiver's own token is. The
      result is always there to be visited. */
  lemma LastSendsFirst(run: seq<State>, acts: seq<Action>, k: nat)
    requires IsRun(run, acts) && k < |acts| && acts[k].OfChild? && acts[k].child.Complete?
    ensures run[k].sent == [] && run[k].log != []
    ensures forall j | 0 <= j < |run[k].children| && j != acts[k].i :: run[k].children[j].Finished?
    ensures run[k + 1].sent == [Sent(if run[k].outer then Halted else Stored(run[k].log[0], run[k].threw))]
  {
    RunInv(run, acts, k);
    var s, i := run[k], acts[k].i;
    assert ChildOk(s, i);
    Actor(s, i);
    if s.core.result == None { SomebodyStores(s); }
    forall j | 0 <= j < |s.children| && j != i ensures s.children[j].Finished? {
      OthersFinished(s, i, j);
    }
  }

  lemma SomebodyStores(s: State)
    requires ResultOk(s) && s.core.emplaced && s.core.result == None
    ensures s.core.count > 0
  {
    var w :| 0 <= w < |s.children| && s.children[w].Winner?;
    NoneOutstanding(s.children, w);
  }

  /** The count is that of the children that have yet to decrement it, so it never wraps below zero. */
  lemma CountMeans(run: seq<State>, acts: seq<Action>, i: nat)
    requires IsRun(run, acts) && i < |run|
    ensures run[i].core.count == |Outstanding(run[i].children)|
    ensures i < |acts| && acts[i].OfChild? && acts[i].child.Decrement? ==> run[i].core.count > 0
  {
    RunInv(run, acts, i);
    if i < |acts| && acts[i].OfChild? && acts[i].child.Decrement? { NoneOutstanding(run[i].children, acts[i].i); }
  }

  // ---------------------------------------------------------------- who touches a completed operation

  // Can any step still read or write the operation?
  ghost predicate Touchable(s: State) { exists a :: Enabled(s, a) && Touches(a) }

  lemma OnlyTheCallback(s: State)
    requires Inv(s) && s.sent != []
    ensures forall a | Enabled(s, a) && Touches(a) :: a == OfOuter(End)
    ensures Touchable(s) <==> s.cb.Begun?
  {
    assert ChildOk(s, 0);
    forall a | Enabled(s, a) && Touches(a) ensures a == OfOuter(End) {
      match a
      case OfOuter(_) =>
      case OfStart(k) => StartIsOver(s, k);
      case OfChild(i, _) => assert ChildOk(s, i); ChildIsOver(s, i);
    }
    if s.cb.Begun? { assert Enabled(s, OfOuter(End)) && Touches(OfOuter(End)); }
  }

  lemma StartIsOver(s: State, k: StartStep)
    requires Shared(s) && ChildOk(s, 0) && s.sent != []
    ensures !StartEnabled(s, k)
  {
    if k.StartNext? {
      if StartEnabled(s, k) { NoneOutstanding(s.children, s.phase.next); }
    } else if s.phase.Connected? || s.phase.Armed? {
      NobodyClosed(s);
    }
  }

  lemma ChildIsOver(s: State, i: nat)
    requires Shared(s) && i < |s.children| && ChildOk(s, i) && s.sent != []
    ensures s.children[i].Finished? || s.children[i].Unstarted?
  {
    if Uncounted(s.children[i]) { NoneOutstanding(s.children, i); }
  }

  /** Once a child has sent the completion from outside the callback, no step touches the operation again. */
  lemma NobodyTouchesIt(run: seq<State>, acts: seq<Action>, i: nat)
    requires IsRun(run, acts) && i < |run| && run[i].sent != [] && !run[i].phase.Refused? && !run[i].inlined
    ensures !Touchable(run[i])
  {
    RunInv(run, acts, i);
    OnlyTheCallback(run[i]);
  }

  /** After a refused start the rest of the callback is the one step that still can, exactly if the callback
      was running when `start` looked. */
  lemma RefusedIff(run: seq<State>, acts: seq<Action>, k: nat)
    requires IsRun(run, acts) && k < |acts| && acts[k] == OfStart(Check) && run[k + 1].phase.Refused?
    ensures Touchable(run[k + 1]) <==> run[k].cb.Begun?
    ensures forall a | Enabled(run[k + 1], a) && Touches(a) :: a == OfOuter(End)
  {
    RunInv(run, acts, k + 1);
    OnlyTheCallback(run[k + 1]);
  }

  /** A child's completion leaves the rest of the callback to touch the operation exactly if the child
      sent it from inside the callback, on whose thread nobody waits. */
  lemma InlineIff(run: seq<State>, acts: seq<Action>, k: nat)
    requires IsRun(run, acts) && k < |acts| && acts[k].OfChild? && acts[k].child.Complete?
    ensures Touchable(run[k + 1]) <==> run[k].inside == Some(acts[k].i)
    ensures run[k + 1].inlined <==> run[k].inside == Some(acts[k].i)
  {
    RunInv(run, acts, k);
    RunInv(run, acts, k + 1);
    assert ChildOk(run[k], acts[k].i);
    OnlyTheCallback(run[k + 1]);
  }

  /** Destroying the operation waits for the callback, so afterwards nothing touches it, with the one
      exception: the callback from inside which the completion was sent, until it ends. */
  lemma DestroyedIff(run: seq<State>, acts: seq<Action>, i: nat)
    requires IsRun(run, acts) && i < |run| && run[i].destroyed
    ensures Touchable(run[i]) <==> run[i].inlined && !run[i].cb.Over?
  {
    RunInv(run, acts, i);
    OnlyTheCallback(run[i]);
  }

  /** The exception happens: one child, whose stop callback completes it, and a receiver that destroys the
      operation when it is completed. */
  lemma InlineStopHurts() returns (run: seq<State>, acts: seq<Action>)
    ensures IsRun(run, acts)
    ensures run[|acts|].destroyed && Touchable(run[|acts|])
  {
    run, acts := CallbackStarts();
    run, acts := Extend(run, acts, OfChild(0, Notify(Halted, true)));
    run, acts := Extend(run, acts, OfChild(0, Emplace(false)));
    run, acts := Extend(run, acts, OfChild(0, StopBegin));
    run, acts := Extend(run, acts, OfChild(0, StopEnd));
    assert run[|acts|] == Halfway([Counting], Core(true, 1, Some(Halted), true), Some(0), [Halted]);
    run, acts := Extend(run, acts, OfChild(0, Decrement));
    run, acts := Extend(run, acts, OfChild(0, Disarm));
    run, acts := Extend(run, acts, OfChild(0, Complete));
    run, acts := Extend(run, acts, OfOuter(Destroy));
    assert Enabled(run[|acts|], OfOuter(End)) && Touches(OfOuter(End));
  }

  function Halfway(children: seq<Child>, core: Core, inside: Option<nat>, log: seq<Signal>): State {
    State(core, children, Started, true, true, Begun, inside, [], false, log, false, false)
  }

  lemma CallbackStarts() returns (run: seq<State>, acts: seq<Action>)
    ensures IsRun(run, acts) && run[|acts|] == Halfway([Running], Core(false, 1, None, true), None, [])
  {
    run := [State(Core(false, 1, None, false), [Unstarted], Connected, false, false, Waiting,
      None, [], false, [], false, false)];
    acts := [];
    run, acts := Extend(run, acts, OfStart(Arm));
    run, acts := Extend(run, acts, OfStart(Check));
    run, acts := Extend(run, acts, OfStart(StartNext));
    run, acts := Extend(run, acts, OfOuter(StopOuter));
    run, acts := Extend(run, acts, OfOuter(Begin));
  }

  lemma Extend(run: seq<State>, acts: seq<Action>, a: Action) returns (run': seq<State>, acts': seq<Action>)
    requires IsRun(run, acts) && Enabled(run[|acts|], a)
    ensures IsRun(run', acts') && |acts'| == |acts| + 1 && run'[|acts'|] == Apply(run[|acts|], a)
  {
    run', acts' := run + [Apply(run[|acts|], a)], acts + [a];
  }

  // ---------------------------------------------------------------- in place

  // `__op_base`, of an operation whose children complete inside their own `start`.
  class OpBase {
    var emplaced: bool
    var count: int
    var result: Option<Signal>
    var stop: bool
    var sent: Option<Completion>

    function View(): Core
      reads this
    {
      Core(emplaced, count, result, stop)
    }

    constructor (n: nat)
      ensures View() == Core(false, n, None, false) && sent == None
    {
      emplaced, count, result, stop, sent := false, n, None, false, None;
    }

    // `notify`, when nothing interferes.
    method Notify(signal: Signal, throws: bool, outer: bool)
      modifies this
      ensures emplaced
      ensures result == if old(emplaced) then old(result) else Some(Stored(signal, throws))
      ensures stop == (old(stop) || !old(emplaced))
      ensures count == old(count) - 1
      ensures sent == if count == 0 then Some(View().Send(outer)) else old(sent)
    {
      if !emplaced {
        emplaced := true;
        result := Some(Stored(signal, throws));
        stop := true;
      }
      count := count - 1;
      if count == 0 {
        sent := Some(if outer then Sent(Halted) else match result case Some(r) => Sent(r) case None => Valueless);
      }
    }
  }

  /** Children that complete inline: the first one's signal is sent, when the last one has been started. */
  method StartInline(signals: seq<Signal>, outer: bool) returns (sent: Option<Completion>)
    requires signals != []
    ensures sent == Some(Sent(if outer then Halted else signals[0]))
  {
    var op := new OpBase(|signals|);
    if outer {
      op.stop := true;
    }
    if op.stop {
      return Some(Sent(Halted));
    }
    for i := 0 to |signals|
      invariant op.count == |signals| - i && op.emplaced == (i > 0)
      invariant i > 0 ==> op.result == Some(signals[0])
      invariant i == |signals| ==> op.sent == Some(Sent(signals[0]))
    {
      op.Notify(signals[i], false, false);
    }
    sent := op.sent;
  }
}

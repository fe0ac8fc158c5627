/**
 What the state of an `async_scope` says about the past: the life of a nested operation, when a waiter saw the count
 at zero, and that waiters are started in the order in which they came.
 */
module ScopeHistory {
  import opened AsyncScope

  lemma StepOf(run: seq<State>, acts: seq<Action>, i: nat)
    requires IsRun(run, acts) && i < |acts|
    ensures Enabled(run[i], acts[i]) && run[i + 1] == Apply(run[i], acts[i])
  {}

  // ---------------------------------------------------------------- nested operations

  datatype Life = Unborn | Active | Notifying | Returned

  // What an action makes of operation `o`, and what may be done to it.
  function Turn(l: Life, a: Action, o: Oid): Life {
    if a == Start(o) then Active
    else if a == Complete(o) then Notifying
    else if a == Action.Return(o) then Returned
    else l
  }

  predicate May(l: Life, a: Action, o: Oid) {
    && (a == Start(o) ==> l.Unborn?) && (a == Complete(o) ==> l.Active?)
    && (a == NotifyNext(o) || a == Action.Return(o) ==> l.Notifying?)
  }

  function LifeBy(acts: seq<Action>, i: nat, o: Oid): Life
    requires i <= |acts|
  {
    if i == 0 then Unborn else Turn(LifeBy(acts, i - 1, o), acts[i - 1], o)
  }

  function LifeOf(s: State, o: Oid): Life {
    if o !in s.ops then Unborn else if s.ops[o].Running? then Active else if s.ops[o].Done? then Returned else Notifying
  }

  lemma LifeStep(s: State, a: Action, o: Oid)
    requires Enabled(s, a)
    ensures May(LifeOf(s, o), a, o) && LifeOf(Apply(s, a), o) == Turn(LifeOf(s, o), a, o)
    ensures Apply(s, a).destroyed <==> s.destroyed || a.Destroy?
  {}

  /** A nested operation is started once, completes once, and starts waiters only between its section and its
      return; the scope is destroyed exactly when that is done to it. */
  lemma {:induction false} OperationLife(run: seq<State>, acts: seq<Action>, i: nat, o: Oid)
    requires IsRun(run, acts) && i < |run|
    ensures LifeOf(run[i], o) == LifeBy(acts, i, o)
    ensures i < |acts| ==> May(LifeBy(acts, i, o), acts[i], o)
    ensures run[i].destroyed <==> exists k | 0 <= k < i :: acts[k].Destroy?
  {
    if i < |acts| {
      StepOf(run, acts, i);
      LifeStep(run[i], acts[i], o);
    }
    if i > 0 {
      OperationLife(run, acts, i - 1, o);
      StepOf(run, acts, i - 1);
      LifeStep(run[i - 1], acts[i - 1], o);
    }
  }

  /** Every operation that has not returned can take its next step. */
  lemma NeverStuck(run: seq<State>, acts: seq<Action>, i: nat, o: Oid)
    requires IsRun(run, acts) && i < |run| && o in run[i].ops && !run[i].ops[o].Done?
    ensures Enabled(run[i], Complete(o)) || Enabled(run[i], NotifyNext(o)) || Enabled(run[i], Action.Return(o))
  {
    RunInv(run, acts, i);
    var s := run[i];
    assert LocalOk(s, o);
    if s.ops[o].Draining? && s.ops[o].local != [] { assert s.ops[o].local[0] in s.ops[o].local; }
  }

  // ---------------------------------------------------------------- waiters

  // The last of the first `i` actions with which `w` arrived, counted from 1.
  function ArrivedAt(acts: seq<Action>, i: nat, w: Wid): (r: nat)
    requires i <= |acts|
    ensures r <= i
  {
    if i == 0 then 0 else if acts[i - 1] == Await(w) then i else ArrivedAt(acts, i - 1, w)
  }

  // The count was zero when `w` arrived, or at some time since.
  ghost predicate Zero(run: seq<State>, acts: seq<Action>, i: nat, w: Wid)
    requires i <= |acts| < |run|
  {
    0 < ArrivedAt(acts, i, w) && exists k | ArrivedAt(acts, i, w) <= k <= i :: run[k].core.active == 0
  }

  lemma SawStep(s: State, a: Action, w: Wid)
    requires Inv(s) && Enabled(s, a)
    ensures w in Apply(s, a).waits <==> w in s.waits || a == Await(w)
    ensures a == Await(w) ==> w !in s.waits && (Apply(s, a).waits[w].sawZero <==> Apply(s, a).core.active == 0)
    ensures w in s.waits && s.waits[w].sawZero ==> Apply(s, a).waits[w].sawZero
    ensures w in s.waits && Apply(s, a).waits[w].sawZero ==> s.waits[w].sawZero || Apply(s, a).core.active == 0
  {
    if a.NotifyNext? { NextIsTaken(s, a.o); }
  }

  // A waiter that has not seen it is in the list, which is empty then.
  lemma ZeroIsSeen(s: State, w: Wid)
    requires Inv(s) && w in s.waits && s.core.active == 0
    ensures s.waits[w].sawZero
  {
    assert WaiterOk(s.waits[w]);
  }

  /** `sawZero`, of which `WaitersStartOnce` speaks, says that the count was zero when the waiter arrived or
      since. */
  lemma {:induction false} SawZeroMeans(run: seq<State>, acts: seq<Action>, i: nat, w: Wid)
    requires IsRun(run, acts) && i < |run|
    ensures w in run[i].waits <==> ArrivedAt(acts, i, w) > 0
    ensures w in run[i].waits ==> (run[i].waits[w].sawZero <==> Zero(run, acts, i, w))
  {
    RunInv(run, acts, i);
    if i > 0 {
      SawZeroMeans(run, acts, i - 1, w);
      RunInv(run, acts, i - 1);
      StepOf(run, acts, i - 1);
      SawStep(run[i - 1], acts[i - 1], w);
      if w in run[i].waits && run[i].core.active == 0 { ZeroIsSeen(run[i], w); }
    }
  }

  predicate Starts(s: State, a: Action, w: Wid) {
    match a
    case Await(v) => v == w && s.core.active == 0
    case NotifyNext(o) => o in s.ops && s.ops[o].Draining? && s.ops[o].local != [] && s.ops[o].local[0] == w
    case _ => false
  }

  function StartsOf(run: seq<State>, acts: seq<Action>, i: nat, w: Wid): nat
    requires i <= |acts| < |run|
  {
    if i == 0 then 0 else StartsOf(run, acts, i - 1, w) + if Starts(run[i - 1], acts[i - 1], w) then 1 else 0
  }

  lemma StartsStep(s: State, a: Action, w: Wid)
    requires Enabled(s, a)
    ensures w in Apply(s, a).waits ==>
              Apply(s, a).waits[w].starts ==
              (if w in s.waits then s.waits[w].starts else 0) + if Starts(s, a, w) then 1 else 0
    ensures w !in Apply(s, a).waits ==> w !in s.waits && !Starts(s, a, w)
  {}

  /** And `starts` counts how often it was started: at once when it found the count at zero, or by a completer. */
  lemma {:induction false} StartsMeans(run: seq<State>, acts: seq<Action>, i: nat, w: Wid)
    requires IsRun(run, acts) && i < |run|
    ensures StartsOf(run, acts, i, w) == if w in run[i].waits then run[i].waits[w].starts else 0
  {
    if i > 0 {
      StartsMeans(run, acts, i - 1, w);
      StepOf(run, acts, i - 1);
      StartsStep(run[i - 1], acts[i - 1], w);
    }
  }

  // A nested operation has been started and not completed.
  ghost predicate SomeActive(acts: seq<Action>, i: nat)
    requires i <= |acts|
  {
    exists o :: LifeBy(acts, i, o).Active?
  }

  lemma ActiveIff(run: seq<State>, acts: seq<Action>, i: nat)
    requires IsRun(run, acts) && i < |run|
    ensures run[i].core.active == 0 <==> !SomeActive(acts, i)
  {
    RunInv(run, acts, i);
    forall o ensures o in RunningOps(run[i].ops) <==> LifeBy(acts, i, o).Active? { OperationLife(run, acts, i, o); }
    if run[i].core.active == 0 {
      assert RunningOps(run[i].ops) == {};
    } else {
      var o :| o in RunningOps(run[i].ops);
    }
  }

  /** While the scope exists, operations start and waiters come at any time, each once; and it may be destroyed if and
      only if no operation is active. */
  lemma CallersMay(run: seq<State>, acts: seq<Action>, i: nat, o: Oid, w: Wid)
    requires IsRun(run, acts) && i < |run|
    ensures Enabled(run[i], Start(o)) <==> !run[i].destroyed && LifeBy(acts, i, o).Unborn?
    ensures Enabled(run[i], Await(w)) <==> !run[i].destroyed && ArrivedAt(acts, i, w) == 0
    ensures Enabled(run[i], Destroy) <==> !run[i].destroyed && !SomeActive(acts, i)
  {
    OperationLife(run, acts, i, o);
    SawZeroMeans(run, acts, i, w);
    ActiveIff(run, acts, i);
    RunInv(run, acts, i);
  }

  // Oldest first.
  ghost predicate InOrder(acts: seq<Action>, i: nat, l: seq<Wid>)
    requires i <= |acts|
  {
    forall x, y | 0 <= x < y < |l| :: ArrivedAt(acts, i, l[x]) < ArrivedAt(acts, i, l[y])
  }

  ghost predicate OrderOk(acts: seq<Action>, i: nat, s: State)
    requires i <= |acts|
  {
    && InOrder(acts, i, s.core.waiters)
    && forall o | o in s.ops && s.ops[o].Draining? :: InOrder(acts, i, s.ops[o].local)
  }

  lemma InOrderLater(acts: seq<Action>, i: nat, l: seq<Wid>)
    requires i < |acts| && InOrder(acts, i, l) && (acts[i].Await? ==> acts[i].w !in l)
    ensures InOrder(acts, i + 1, l)
  {}

  lemma AppendInOrder(acts: seq<Action>, i: nat, l: seq<Wid>, w: Wid)
    requires i < |acts| && InOrder(acts, i, l) && acts[i] == Await(w) && w !in l
    ensures InOrder(acts, i + 1, l + [w])
  {}

  lemma OrderStep(acts: seq<Action>, i: nat, s: State)
    requires i < |acts| && Inv(s) && Enabled(s, acts[i]) && OrderOk(acts, i, s)
    ensures OrderOk(acts, i + 1, Apply(s, acts[i]))
  {
    var a, s' := acts[i], Apply(s, acts[i]);
    InOrderLater(acts, i, s.core.waiters);
    if a.Await? { AppendInOrder(acts, i, s.core.waiters, a.w); }
    forall o | o in s'.ops && s'.ops[o].Draining? ensures InOrder(acts, i + 1, s'.ops[o].local) {
      assert LocalOk(s, o);
      if o in s.ops && s.ops[o].Draining? {
        InOrderLater(acts, i, s.ops[o].local);
      }
    }
  }

  /** Waiters are queued, and started by the completer that takes them, in the order in which they came. */
  lemma {:induction false} OldestFirst(run: seq<State>, acts: seq<Action>, i: nat)
    requires IsRun(run, acts) && i < |run|
    ensures OrderOk(acts, i, run[i])
  {
    if i > 0 {
      OldestFirst(run, acts, i - 1);
      RunInv(run, acts, i - 1);
      StepOf(run, acts, i - 1);
      OrderStep(acts, i - 1, run[i - 1]);
    }
  }
}

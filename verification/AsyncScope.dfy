/**
 `async_scope`: the count of active nested operations and the senders waiting for it to reach zero.

 Any number of nested operations and of waiters, on any threads. A critical section of `__lock_` is one
 step. The scope may be destroyed as soon as its destructor's assertions hold.
 */
module AsyncScope {
  import opened Basics

  type Oid = nat
  type Wid = nat

  // ---------------------------------------------------------------- what the mutex guards

  datatype Core = Core(active: int, waiters: seq<Wid>) {
    function Entered(): Core { this.(active := active + 1) }

    // The section of `__complete`: what it leaves behind and the waiters it takes along.
    function Left(): (Core, seq<Wid>) {
      if active - 1 == 0 then (Core(0, []), waiters) else (this.(active := active - 1), [])
    }

    // The section of `__when_empty_op::start`: is the waiter queued?
    function Arrived(w: Wid): (Core, bool) {
      if active != 0 then (this.(waiters := waiters + [w]), true) else (this, false)
    }
  }

  // ---------------------------------------------------------------- the steps

  datatype OpPc = Running | Draining(local: seq<Wid>) | Done

  // `sawZero` is history: the count was zero when it arrived, or went to zero after that.
  datatype Waiter = Waiter(pc: WPc, starts: nat, sawZero: bool)

  // `Taken`: in the local list of the completer that brought the count to zero.
  datatype WPc = Queued | Taken(from: Oid) | Started

  datatype State = State(core: Core, ops: map<Oid, OpPc>, waits: map<Wid, Waiter>, destroyed: bool)

  datatype Action = Start(o: Oid) | Complete(o: Oid) | NotifyNext(o: Oid) | Return(o: Oid) | Await(w: Wid) | Destroy

  predicate Enabled(s: State, a: Action) {
    match a
    case Start(o) => !s.destroyed && o !in s.ops
    case Complete(o) => o in s.ops && s.ops[o].Running?
    case NotifyNext(o) => o in s.ops && s.ops[o].Draining? && s.ops[o].local != [] && s.ops[o].local[0] in s.waits
    case Return(o) => o in s.ops && s.ops[o].Draining? && s.ops[o].local == []
    case Await(w) => !s.destroyed && w !in s.waits
    case Destroy => !s.destroyed && s.core.active == 0 && s.core.waiters == []
  }

  function Apply(s: State, a: Action): State
    requires Enabled(s, a)
  {
    match a
    case Start(o) => s.(core := s.core.Entered(), ops := s.ops[o := Running])
    case Complete(o) =>
      var (core, taken) := s.core.Left();
      s.(core := core, ops := s.ops[o := Draining(taken)],
         waits := map w | w in s.waits ::
           if w in taken then s.waits[w].(pc := Taken(o), sawZero := true) else s.waits[w])
    case NotifyNext(o) =>
      var w := s.ops[o].local[0];
      s.(ops := s.ops[o := Draining(s.ops[o].local[1..])],
         waits := s.waits[w := s.waits[w].(pc := Started, starts := s.waits[w].starts + 1)])
    case Return(o) => s.(ops := s.ops[o := Done])
    case Await(w) =>
      var (core, queued) := s.core.Arrived(w);
      s.(core := core, waits := s.waits[w := if queued then Waiter(Queued, 0, false) else Waiter(Started, 1, true)])
    case Destroy => s.(destroyed := true)
  }

  predicate Init(s: State) { s.core == Core(0, []) && s.ops == map[] && s.waits == map[] && !s.destroyed }

  // ---------------------------------------------------------------- the invariant

  ghost function RunningOps(ops: map<Oid, OpPc>): set<Oid> { set o | o in ops && ops[o].Running? }

  predicate WaiterOk(w: Waiter) {
    && (w.pc.Queued? || w.pc.Taken? ==> w.starts == 0)
    && (w.pc.Taken? ==> w.sawZero)
    && (w.pc.Started? ==> w.starts == 1 && w.sawZero)
  }

  // The local list of a completer is its taken waiters, each once.
  ghost predicate LocalOk(s: State, o: Oid) {
    && (o in s.ops && s.ops[o].Draining? ==> Distinct(s.ops[o].local))
    && (forall w :: w in s.waits && s.waits[w].pc == Taken(o) <==>
          o in s.ops && s.ops[o].Draining? && w in s.ops[o].local)
  }

  ghost predicate Inv(s: State) {
    && s.core.active == |RunningOps(s.ops)|
    && (s.core.active == 0 ==> s.core.waiters == [])
    && Distinct(s.core.waiters)
    && (forall w :: w in s.core.waiters <==> w in s.waits && s.waits[w].pc.Queued?)
    && (forall w | w in s.waits :: WaiterOk(s.waits[w]))
    && (forall o :: LocalOk(s, o))
    && (s.destroyed ==> s.core.active == 0)
  }

  lemma RunningUpdate(ops: map<Oid, OpPc>, o: Oid, p: OpPc)
    ensures |RunningOps(ops[o := p])| ==
            |RunningOps(ops)| + (if p.Running? then 1 else 0) - if o in ops && ops[o].Running? then 1 else 0
  {
    var before, after := RunningOps(ops), RunningOps(ops[o := p]);
    if p.Running? == (o in before) {
      assert after == before;
    } else if p.Running? {
      assert after == before + {o};
    } else {
      assert after == before - {o};
    }
  }

  lemma CountStep(s: State, a: Action)
    requires s.core.active == |RunningOps(s.ops)| && Enabled(s, a)
    ensures Apply(s, a).core.active == |RunningOps(Apply(s, a).ops)|
  {
    match a
    case Start(o) => RunningUpdate(s.ops, o, Running);
    case Complete(o) => RunningUpdate(s.ops, o, Draining(s.core.Left().1));
    case NotifyNext(o) => RunningUpdate(s.ops, o, Draining(s.ops[o].local[1..]));
    case Return(o) => RunningUpdate(s.ops, o, Done);
    case _ =>
  }

  lemma NextIsTaken(s: State, o: Oid)
    requires Inv(s) && Enabled(s, NotifyNext(o))
    ensures s.waits[s.ops[o].local[0]].pc == Taken(o) && Distinct(s.ops[o].local)
  {
    assert LocalOk(s, o) && s.ops[o].local[0] in s.ops[o].local;
  }

  lemma LocalStep(s: State, a: Action, o: Oid)
    requires Inv(s) && Enabled(s, a)
    ensures LocalOk(Apply(s, a), o)
  {
    assert LocalOk(s, o);
    if a.NotifyNext? {
      NextIsTaken(s, a.o);
      var l := s.ops[a.o].local;
      assert l[0] !in l[1..];
      assert forall w :: w in l <==> w == l[0] || w in l[1..];
    }
  }

  lemma StepInv(s: State, a: Action)
    requires Inv(s) && Enabled(s, a)
    ensures Inv(Apply(s, a))
  {
    CountStep(s, a);
    forall o ensures LocalOk(Apply(s, a), o) { LocalStep(s, a, o); }
    if a.Complete? { assert a.o in RunningOps(s.ops); }
    if a.NotifyNext? { NextIsTaken(s, a.o); }
  }

  lemma InitInv(s: State)
    requires Init(s)
    ensures Inv(s)
  {
    assert RunningOps(s.ops) == {};
  }

  /** Any interleaving. */
  ghost predicate IsRun(run: seq<State>, acts: seq<Action>) {
    && |run| == |acts| + 1 && Init(run[0])
    && forall i | 0 <= i < |acts| :: Enabled(run[i], acts[i]) && run[i + 1] == Apply(run[i], acts[i])
  }

  lemma {:induction false} RunInv(run: seq<State>, acts: seq<Action>, i: nat)
    requires IsRun(run, acts) && i < |run|
    ensures Inv(run[i])
  {
    if i == 0 {
      InitInv(run[0]);
    } else {
      RunInv(run, acts, i - 1);
      StepInv(run[i - 1], acts[i - 1]);
    }
  }

  // ---------------------------------------------------------------- what holds over whole runs

  /** The count is the number of nested operations started and not finished, and whenever the lock is free
      the waiters are kept only while it is not zero. */
  lemma ActiveCounts(run: seq<State>, acts: seq<Action>, i: nat)
    requires IsRun(run, acts) && i < |run|
    ensures run[i].core.active == |RunningOps(run[i].ops)|
    ensures run[i].core.waiters != [] ==> run[i].core.active > 0
  {
    RunInv(run, acts, i);
  }

  /** A waiter starts at most once, and only if the count was zero when it arrived or later; once no
      operation is running or notifying, every waiter has started. */
  lemma WaitersStartOnce(run: seq<State>, acts: seq<Action>, i: nat, w: Wid)
    requires IsRun(run, acts) && i < |run| && w in run[i].waits
    ensures run[i].waits[w].starts <= 1
    ensures run[i].waits[w].starts == 1 ==> run[i].waits[w].sawZero
    ensures (forall o | o in run[i].ops :: run[i].ops[o].Done?) ==> run[i].waits[w].starts == 1
  {
    RunInv(run, acts, i);
    var s := run[i];
    if forall o | o in s.ops :: s.ops[o].Done? {
      assert RunningOps(s.ops) == {};
      assert s.waits[w].pc.Taken? ==> LocalOk(s, s.waits[w].pc.from);
    }
  }

  lemma NobodyRunning(s: State)
    requires Inv(s) && s.core.active == 0
    ensures forall o | o in s.ops :: !s.ops[o].Running?
  {
    forall o | o in s.ops ensures !s.ops[o].Running? {
      assert s.ops[o].Running? ==> o in RunningOps(s.ops);
    }
  }

  /** A scope may be destroyed while completers are still notifying: nothing that remains to be done
      enters it again, since whoever would enter is counted. */
  lemma DestroyedIsUntouched(run: seq<State>, acts: seq<Action>, i: nat)
    requires IsRun(run, acts) && i < |acts| && run[i].destroyed
    ensures acts[i].NotifyNext? || acts[i].Return?
    ensures run[i + 1].core == run[i].core && run[i + 1].destroyed
  {
    RunInv(run, acts, i);
    NobodyRunning(run[i]);
  }

  // ---------------------------------------------------------------- in place

  class Scope {
    var active: int
    var waiters: seq<Wid>

    function View(): Core
      reads this
    {
      Core(active, waiters)
    }

    constructor ()
      ensures View() == Core(0, [])
    {
      active, waiters := 0, [];
    }

    // `__nest_op::start`, before it starts the child
    method Enter()
      modifies this
      ensures View() == old(View()).Entered()
    {
      active := active + 1;
    }

    // `__nest_rcvr::__complete`: the waiters are notified in order, after the lock is released.
    method Complete() returns (notified: seq<Wid>)
      modifies this
      ensures (View(), notified) == old(View()).Left()
    {
      notified := [];
      active := active - 1;
      if active == 0 {
        var local := waiters;
        waiters := [];
        while local != []
          invariant active == 0 && waiters == [] && notified + local == old(waiters)
          decreases |local|
        {
          notified, local := notified + [local[0]], local[1..];
        }
        assert notified + local == notified;
      }
    }

    // `__when_empty_op::start`
    method WhenEmpty(w: Wid) returns (queued: bool)
      modifies this
      ensures (View(), queued) == old(View()).Arrived(w)
    {
      queued := active != 0;
      if queued {
        waiters := waiters + [w];
      }
    }

    /** Any action of the protocol, carried out on the object: it ends in the state the protocol says, the
        completer that reached zero has the waiters it is to notify, and a waiter knows whether it waits. */
    method Act(ghost s: State, a: Action) returns (taken: seq<Wid>, queued: bool)
      requires Enabled(s, a) && View() == s.core
      modifies this
      ensures View() == Apply(s, a).core
      ensures a.Complete? ==> Apply(s, a).ops[a.o] == Draining(taken)
      ensures a.Await? ==> Apply(s, a).waits[a.w].pc == if queued then Queued else WPc.Started
    {
      taken, queued := [], false;
      match a {
        case Start(_) => Enter();
        case Complete(_) => taken := Complete();
        case Await(w) => queued := WhenEmpty(w);
        case _ =>
      }
    }

    /** So the object goes through every run, and gives each completer the waiters the run says it notifies. */
    method Replay(ghost run: seq<State>, acts: seq<Action>) returns (taken: seq<seq<Wid>>)
      requires IsRun(run, acts) && View() == run[0].core
      modifies this
      ensures View() == run[|acts|].core && |taken| == |acts|
      ensures forall i | 0 <= i < |acts| && acts[i].Complete? :: run[i + 1].ops[acts[i].o] == Draining(taken[i])
    {
      taken := [];
      for i := 0 to |acts|
        invariant View() == run[i].core && |taken| == i
        invariant forall k | 0 <= k < i && acts[k].Complete? :: run[k + 1].ops[acts[k].o] == Draining(taken[k])
      {
        var ws, queued := Act(run[i], acts[i]);
        taken := taken + [ws];
      }
    }
  }
}

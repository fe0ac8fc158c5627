/**
 What the state of an Asio operation says about the past: what an invocation sends, which exceptions the frames
 caught, which frames are open, and the life of a handler object from its making to its end.
 */
module CompletionHistory {
  import opened Options
  import opened CompletionToken

  lemma StepOf(run: seq<State>, acts: seq<Action>, i: nat)
    requires IsRun(run, acts) && i < |acts|
    ensures Enabled(run[i], acts[i]) && run[i + 1] == Apply(run[i], acts[i])
  {}

  // ---------------------------------------------------------------- what is sent

  function Recorded(acts: seq<Action>, i: nat): seq<Ex>
    requires i <= |acts|
  {
    if i == 0 then [] else Recorded(acts, i - 1) + if acts[i - 1].Record? then [acts[i - 1].e] else []
  }

  lemma RaisedStep(s: State, a: Action)
    requires Enabled(s, a)
    ensures Apply(s, a).raised == s.raised + if a.Record? then [a.e] else []
    ensures Apply(s, a).invoked == if a.Invoke? then Some(a.v) else s.invoked
    ensures a.Invoke? ==> Apply(s, a).handlers == s.handlers[a.h := Sending(a.v)]
  {}

  /** The exceptions that count are those the frames caught, in that order. */
  lemma {:induction false} RaisedMeans(run: seq<State>, acts: seq<Action>, i: nat)
    requires IsRun(run, acts) && i < |run|
    ensures run[i].raised == Recorded(acts, i)
  {
    if i > 0 {
      RaisedMeans(run, acts, i - 1);
      StepOf(run, acts, i - 1);
      RaisedStep(run[i - 1], acts[i - 1]);
    }
  }

  /** An invocation sends the first exception caught, and without one the value, unless its conversion throws:
      then that exception. */
  lemma SendMeans(run: seq<State>, acts: seq<Action>, k: nat)
    requires IsRun(run, acts) && k < |acts| && acts[k].Send?
    ensures run[k].invoked.Some? && |run[k + 1].core.sent| == 1
    ensures Recorded(acts, k) != [] ==> run[k + 1].core.sent == [Error(Recorded(acts, k)[0])]
    ensures Recorded(acts, k) == [] && !acts[k].throws ==> run[k + 1].core.sent == [Value(run[k].invoked.value)]
    ensures Recorded(acts, k) == [] && acts[k].throws ==> run[k + 1].core.sent == [Error(ConversionThrew)]
  {
    RunInv(run, acts, k);
    RunInv(run, acts, k + 1);
    StepOf(run, acts, k);
    RaisedMeans(run, acts, k);
    assert HandlerOk(run[k], acts[k].h) && Holds(run[k].handlers[acts[k].h]) && Pending(run[k]);
  }

  /** And the value is that of the one invocation. */
  lemma {:induction false} InvokedMeans(run: seq<State>, acts: seq<Action>, i: nat, v: nat)
    requires IsRun(run, acts) && i < |run|
    ensures run[i].invoked == Some(v) <==> exists k | 0 <= k < i :: acts[k].Invoke? && acts[k].v == v
    ensures run[i].invoked == None <==> forall k | 0 <= k < i :: !acts[k].Invoke?
  {
    if i > 0 {
      InvokedMeans(run, acts, i - 1, v);
      StepOf(run, acts, i - 1);
      RaisedStep(run[i - 1], acts[i - 1]);
      if run[i - 1].invoked.Some? { InvocationNeutralises(run, acts, i - 1); }
    }
  }

  // ---------------------------------------------------------------- open frames

  function Opened(acts: seq<Action>, i: nat, t: Tid): seq<Fid>
    requires i <= |acts|
  {
    if i == 0 then [] else
      var l := Opened(acts, i - 1, t);
      match acts[i - 1]
      case Begin(u, f, _) => if u == t then l + [f] else l
      case Push(u, f) => if u == t then l + [f] else l
      case Pop(u) => if u == t && l != [] then l[..|l| - 1] else l
      case _ => l
  }

  lemma StackStepOf(s: State, a: Action, t: Tid)
    requires Enabled(s, a) && (a.Begin? ==> Stack(s, a.t) == [])
    ensures Stack(Apply(s, a), t) ==
            match a
            case Begin(u, f, _) => (if u == t then Stack(s, t) + [f] else Stack(s, t))
            case Push(u, f) => (if u == t then Stack(s, t) + [f] else Stack(s, t))
            case Pop(u) => (if u == t then Stack(s, t)[..|Stack(s, t)| - 1] else Stack(s, t))
            case _ => Stack(s, t)
  {}

  /** The open frames of a thread are those it opened and has not closed, the innermost last. */
  lemma {:induction false} StackMeans(run: seq<State>, acts: seq<Action>, i: nat, t: Tid)
    requires IsRun(run, acts) && i < |run|
    ensures Stack(run[i], t) == Opened(acts, i, t)
  {
    if i > 0 {
      StackMeans(run, acts, i - 1, t);
      RunInv(run, acts, i - 1);
      StepOf(run, acts, i - 1);
      StackStepOf(run[i - 1], acts[i - 1], t);
    }
  }

  // ---------------------------------------------------------------- the life of a handler object

  // What an action makes of handler object `h`, given what it was.
  datatype Life = Unborn | Alive | Called | Hollow | Over

  function Turn(l: Life, a: Action, h: Hid): Life {
    match a
    case Begin(_, _, x) => if x == h then Alive else l
    case Move(_, x, to) => if to == h then Alive else if x == h then Hollow else l
    case MoveEmpty(_, to) => if to == h then Hollow else l
    case Drop(_, x, _) => if x == h then Over else l
    case DropEmpty(x) => if x == h then Over else l
    case Invoke(_, x, _) => if x == h then Called else l
    case Send(x, _) => if x == h then Hollow else l
    case _ => l
  }

  // What may be done to it: a live one is moved, dropped or invoked, and a hollow one moved or dropped.
  predicate May(l: Life, a: Action, h: Hid) {
    match a
    case Begin(_, _, x) => x == h ==> l.Unborn?
    case Move(_, x, to) => (to == h ==> l.Unborn?) && (x == h ==> l.Alive?)
    case MoveEmpty(x, to) => (to == h ==> l.Unborn?) && (x == h ==> l.Hollow?)
    case Drop(_, x, _) => x == h ==> l.Alive?
    case DropEmpty(x) => x == h ==> l.Hollow?
    case Invoke(_, x, _) => x == h ==> l.Alive?
    case Send(x, _) => x == h ==> l.Called?
    case _ => true
  }

  function LifeBy(acts: seq<Action>, i: nat, h: Hid): Life
    requires i <= |acts|
  {
    if i == 0 then Unborn else Turn(LifeBy(acts, i - 1, h), acts[i - 1], h)
  }

  function LifeOf(s: State, h: Hid): Life {
    if h !in s.handlers then Unborn else
      match s.handlers[h]
      case Live => Alive
      case Sending(_) => Called
      case Empty => Hollow
      case Gone => Over
  }

  lemma LifeStep(s: State, a: Action, h: Hid)
    requires Enabled(s, a) && (a.Begin? ==> s.handlers == map[])
    ensures May(LifeOf(s, h), a, h) && LifeOf(Apply(s, a), h) == Turn(LifeOf(s, h), a, h)
  {}

  /** Every handler object is made once, alive or hollow; moving from it, and completing through it, leave it
      hollow, and it is dropped once, whatever it is then. */
  lemma {:induction false} HandlerLife(run: seq<State>, acts: seq<Action>, i: nat, h: Hid)
    requires IsRun(run, acts) && i < |run|
    ensures LifeOf(run[i], h) == LifeBy(acts, i, h)
    ensures i < |acts| ==> May(LifeBy(acts, i, h), acts[i], h)
  {
    RunInv(run, acts, i);
    if i < |acts| {
      StepOf(run, acts, i);
      LifeStep(run[i], acts[i], h);
    }
    if i > 0 {
      HandlerLife(run, acts, i - 1, h);
      RunInv(run, acts, i - 1);
      StepOf(run, acts, i - 1);
      LifeStep(run[i - 1], acts[i - 1], h);
    }
  }

  /** Until the receiver is completed something can be done towards it: a frame closed, a handler invoked, or an
      invocation finished; and an open frame and a hollow handler can always be done with. */
  lemma NeverStuck(run: seq<State>, acts: seq<Action>, i: nat)
    requires IsRun(run, acts) && i < |run|
    ensures run[i].begun && run[i].core.sent == [] ==>
              exists a :: Enabled(run[i], a) && (a.Pop? || a.Invoke? || a.Send?)
    ensures forall t | Stack(run[i], t) != [] :: Enabled(run[i], Pop(t))
    ensures forall h | LifeOf(run[i], h).Hollow? :: Enabled(run[i], DropEmpty(h))
  {
    RunInv(run, acts, i);
    var s := run[i];
    if s.begun && s.core.sent == [] {
      if s.core.frames != [] {
        assert StackOk(s, s.mutex.t) && Enabled(s, Pop(s.mutex.t));
      } else {
        var h :| h in s.handlers && Holds(s.handlers[h]);
        assert if s.handlers[h].Live? then Enabled(s, Invoke(0, h, 0)) else Enabled(s, Send(h, false));
      }
    }
  }

  // No other thread has a frame open that it still owns.
  ghost predicate Alone(s: State, t: Tid) {
    forall u, f | u != t && f in Stack(s, u) :: f !in s.locked
  }

  lemma Admitted(s: State, t: Tid)
    requires Inv(s)
    ensures s.mutex.Admits(t) ==> Alone(s, t)
  {
    forall u, f | u != t && f in Stack(s, u) && s.mutex.Admits(t) ensures f !in s.locked {
      assert StackOk(s, u);
    }
  }

  lemma AdmittedIff(s: State, t: Tid)
    requires Inv(s)
    ensures s.mutex.Admits(t) <==> Alone(s, t)
  {
    Admitted(s, t);
    if !s.mutex.Admits(t) {
      assert StackOk(s, s.mutex.t) && s.core.frames != [];
      assert s.core.frames[0] in Stack(s, s.mutex.t) && s.core.frames[0] in s.locked;
    }
  }

  lemma SomeAlive(s: State)
    ensures SomeLive(s) <==> exists x :: LifeOf(s, x).Alive?
  {
    if x :| LifeOf(s, x).Alive? { assert x in s.handlers && s.handlers[x].Live?; }
    if x :| x in s.handlers && s.handlers[x].Live? { assert LifeOf(s, x).Alive?; }
  }

  /** A thread may open a frame, and move, drop or invoke a live handler, exactly while no other thread has an open
      frame that it still owns; a frame moreover only with a live handler, or inside another frame. */
  lemma CallersMay(run: seq<State>, acts: seq<Action>, i: nat, t: Tid, h: Hid, to: Hid, f: Fid)
    requires IsRun(run, acts) && i < |run| && Fresh(run[i], f) && LifeOf(run[i], to).Unborn?
    ensures Enabled(run[i], Move(t, h, to)) <==> LifeOf(run[i], h).Alive? && Alone(run[i], t)
    ensures Enabled(run[i], Drop(t, h, f)) <==> LifeOf(run[i], h).Alive? && Alone(run[i], t)
    ensures forall v :: Enabled(run[i], Invoke(t, h, v)) <==> LifeOf(run[i], h).Alive? && Alone(run[i], t)
    ensures Enabled(run[i], MoveEmpty(h, to)) <==> LifeOf(run[i], h).Hollow?
    ensures Enabled(run[i], Push(t, f)) <==>
              Alone(run[i], t) && (TopIsLocked(run[i], t) || exists x :: LifeOf(run[i], x).Alive?)
    ensures forall e :: Enabled(run[i], Record(t, e)) <==> TopIsLocked(run[i], t)
  {
    RunInv(run, acts, i);
    AdmittedIff(run[i], t);
    SomeAlive(run[i]);
  }
}

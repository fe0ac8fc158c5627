/**
 What the state of the timed context says about the past: which signal an operation gets and why, the clock and
 the stop flag, the order of the command queue and of the keys, and that the context's thread, every submission and
 every operation go through their code in program order.
 */
module TimedHistory {
  import opened TimedThread

  lemma StepOf(run: seq<State>, acts: seq<Action>, i: nat)
    requires IsRun(run, acts) && i < |acts|
    ensures Enabled(run[i], acts[i]) && run[i + 1] == Apply(run[i], acts[i])
  {
    assert Step(run, acts, i);
  }

  // ---------------------------------------------------------------- which signal, and why

  // Stopped only if somebody asked for it, or the context is closed; and a stop command of an operation has taken
  // it out of the heap before it is counted itself.
  predicate WhyStopped(s: State, o: Oid) {
    && (o in s.ops && s.ops[o].completions == 1 && s.ops[o].result.Stopped? ==> s.ops[o].fired || Shut(s))
    && (s.pc == Second(o) ==> o !in s.heap)
  }

  lemma WhyConsumed(s: State, c: Cmd, k: Kind, o: Oid)
    requires c.o in s.ops && WhyStopped(s, o) && (c.o == o && k.Stopped? ==> s.ops[o].fired || Shut(s))
    ensures WhyStopped(Consume(s, c, k), o)
  {}

  // A stop command in the queue or in hand is of an operation whose callback has fired.
  lemma StopFired(s: State, o: Oid)
    requires Inv(s) && Cmd.Stop(o) in s.subs
    ensures o in s.ops && s.ops[o].fired
  {
    assert CmdOk(s, Cmd.Stop(o)) && OpOk(s, o);
  }

  lemma WhyOp(s: State, p: Oid, k: OpStep, o: Oid)
    requires Inv(s) && OpEnabled(s, p, k) && WhyStopped(s, o)
    ensures WhyStopped(OpApply(s, p, k), o)
  {
    if p in s.ops { assert OpOk(s, p); }
  }

  lemma WhySub(s: State, c: Cmd, k: SubStep, o: Oid)
    requires Inv(s) && SubEnabled(s, c, k) && WhyStopped(s, o)
    ensures WhyStopped(SubApply(s, c, k), o)
  {
    assert CmdOk(s, c);
    if k.DoRefuse? { WhyConsumed(s, c, Stopped, o); }
  }

  lemma WhyCommand(s: State, o: Oid)
    requires Inv(s) && RunEnabled(s, Command) && WhyStopped(s, o)
    ensures WhyStopped(RunApply(s, Command), o)
  {
    var c := s.queue[0];
    assert CmdOk(s, c);
    if c.Stop? {
      StopFired(s, c.o);
      if c.o in s.heap { WhyConsumed(s.(queue := s.queue[1..], heap := s.heap - {c.o}), Sched(c.o), Stopped, o); }
    }
  }

  lemma WhyRun(s: State, k: RunStep, o: Oid)
    requires Inv(s) && RunEnabled(s, k) && WhyStopped(s, o)
    ensures WhyStopped(RunApply(s, k), o)
  {
    match k
    case Command => WhyCommand(s, o);
    case StopSelf =>
      assert CmdOk(s, Cmd.Stop(s.pc.o));
      StopFired(s, s.pc.o);
      WhyConsumed(s, Cmd.Stop(s.pc.o), Stopped, o);
    case FireFront(p) => WhyConsumed(s.(heap := s.heap - {p}), Sched(p), Value, o);
    case DrainFront(p) => WhyConsumed(s.(heap := s.heap - {p}), Sched(p), Stopped, o);
    case _ =>
  }

  /** An operation is completed as stopped only if a stop was requested of it, or the context is closed. */
  lemma {:induction false} StoppedMeans(run: seq<State>, acts: seq<Action>, i: nat, o: Oid)
    requires IsRun(run, acts) && i < |run|
    ensures WhyStopped(run[i], o)
  {
    if i > 0 {
      StoppedMeans(run, acts, i - 1, o);
      RunInv(run, acts, i - 1);
      StepOf(run, acts, i - 1);
      match acts[i - 1]
      case OfOp(p, k) => WhyOp(run[i - 1], p, k, o);
      case OfSub(c, k) => WhySub(run[i - 1], c, k, o);
      case OfRun(k) => WhyRun(run[i - 1], k, o);
    }
  }

  /** When the timer fires an operation that nobody asked to stop, a value is sent there and then. */
  lemma FireSends(run: seq<State>, acts: seq<Action>, k: nat, o: Oid)
    requires IsRun(run, acts) && k < |acts| && acts[k] == OfRun(FireFront(o)) && o in run[k].ops && !run[k].ops[o].fired
    ensures o in run[k + 1].ops && run[k + 1].ops[o].completions == 1 && run[k + 1].ops[o].result == Value
    ensures o !in run[k + 1].heap
  {
    RunInv(run, acts, k);
    StepOf(run, acts, k);
    assert CmdOk(run[k], Sched(o)) && OpOk(run[k], o);
  }

  /** When the closed context drains its heap, an operation that nobody asked to stop is completed as stopped. */
  lemma DrainStops(run: seq<State>, acts: seq<Action>, k: nat, o: Oid)
    requires IsRun(run, acts) && k < |acts| && acts[k] == OfRun(DrainFront(o))
    requires o in run[k].ops && !run[k].ops[o].fired
    ensures o in run[k + 1].ops && run[k + 1].ops[o].completions == 1 && run[k + 1].ops[o].result == Stopped
  {
    RunInv(run, acts, k);
    StepOf(run, acts, k);
    assert CmdOk(run[k], Sched(o)) && OpOk(run[k], o);
  }

  /** Firing and draining take out the front and nothing else. */
  lemma FrontTakenOut(run: seq<State>, acts: seq<Action>, k: nat, o: Oid)
    requires IsRun(run, acts) && k < |acts| && (acts[k] == OfRun(FireFront(o)) || acts[k] == OfRun(DrainFront(o)))
    ensures o in run[k].heap && run[k + 1].heap == run[k].heap - {o}
  {
    StepOf(run, acts, k);
  }

  /** When a stop command has been handled, its operation is not in the heap. */
  lemma StopTakesOut(run: seq<State>, acts: seq<Action>, k: nat, o: Oid)
    requires IsRun(run, acts) && k < |acts| && acts[k] == OfRun(StopSelf) && run[k].pc == Second(o)
    ensures o !in run[k + 1].heap
  {
    StoppedMeans(run, acts, k, o);
    StepOf(run, acts, k);
  }

  // ---------------------------------------------------------------- clock, stop flag, operations

  function Ticks(acts: seq<Action>, i: nat): nat
    requires i <= |acts|
  {
    if i == 0 then 0 else Ticks(acts, i - 1) + if acts[i - 1] == OfRun(Tick) then 1 else 0
  }

  lemma ClockByRun(s: State, k: RunStep)
    requires RunEnabled(s, k)
    ensures RunApply(s, k).now == s.now + if k.Tick? then 1 else 0
    ensures RunApply(s, k).stopRequested <==> s.stopRequested || k.RequestStop?
  {}

  lemma ClockStep(s: State, a: Action)
    requires Enabled(s, a)
    ensures Apply(s, a).now == s.now + if a == OfRun(Tick) then 1 else 0
    ensures Apply(s, a).stopRequested <==> s.stopRequested || a == OfRun(RequestStop)
  {
    if a.OfRun? { ClockByRun(s, a.run); }
  }

  /** The clock goes on with every tick, and stopping is requested exactly by `request_stop`. */
  lemma {:induction false} ClockMeans(run: seq<State>, acts: seq<Action>, i: nat)
    requires IsRun(run, acts) && i < |run|
    ensures run[i].now == Ticks(acts, i)
    ensures run[i].stopRequested <==> exists k | 0 <= k < i :: acts[k] == OfRun(RequestStop)
  {
    if i > 0 {
      ClockMeans(run, acts, i - 1);
      StepOf(run, acts, i - 1);
      ClockStep(run[i - 1], acts[i - 1]);
    }
  }

  // What an operation shows of its own steps.
  datatype Shown = Unknown | Shown(time: nat, fired: bool, reset: bool, armed: bool)

  function View(s: State, o: Oid): Shown {
    if o in s.ops then Shown(s.ops[o].time, s.ops[o].fired, s.ops[o].reset, s.ops[o].start.Armed?) else Unknown
  }

  // The effect of the steps it has taken so far.
  function Taken(acts: seq<Action>, i: nat, o: Oid): Shown
    requires i <= |acts|
  {
    if i == 0 then Unknown else
      var v := Taken(acts, i - 1, o);
      if acts[i - 1].OfOp? && acts[i - 1].o == o then Turned(v, acts[i - 1].op) else v
  }

  // The effect of one of its steps.
  function Turned(v: Shown, k: OpStep): Shown {
    if k.Start? then Shown(k.time, false, false, true)
    else if v.Unknown? then v
    else match k
         case Fire => v.(fired := true)
         case Reset => v.(reset := true)
         case _ => v.(armed := false)
  }

  lemma ViewByOp(s: State, p: Oid, k: OpStep, o: Oid)
    requires OpEnabled(s, p, k)
    ensures View(OpApply(s, p, k), o) == if p == o then Turned(View(s, o), k) else View(s, o)
  {}

  lemma ViewBySub(s: State, c: Cmd, k: SubStep, o: Oid)
    requires SubEnabled(s, c, k)
    ensures View(SubApply(s, c, k), o) == View(s, o)
  {}

  lemma ViewByRun(s: State, k: RunStep, o: Oid)
    requires RunEnabled(s, k)
    ensures View(RunApply(s, k), o) == View(s, o)
  {}

  /** An operation is there from its start on, with the deadline it was started with; its callback has fired, is
      deregistered, and its exchange is over exactly when it took those steps. */
  lemma {:induction false} OpMeans(run: seq<State>, acts: seq<Action>, i: nat, o: Oid)
    requires IsRun(run, acts) && i < |run|
    ensures View(run[i], o) == Taken(acts, i, o)
  {
    if i > 0 {
      OpMeans(run, acts, i - 1, o);
      StepOf(run, acts, i - 1);
      match acts[i - 1]
      case OfOp(p, k) => ViewByOp(run[i - 1], p, k, o);
      case OfSub(c, k) => ViewBySub(run[i - 1], c, k, o);
      case OfRun(k) => ViewByRun(run[i - 1], k, o);
    }
  }

  predicate Grows(s: State, t: State, o: Oid)
    requires o in s.ops
  {
    o in t.ops && t.ops[o].completions >= s.ops[o].completions
  }

  lemma GrowsByOp(s: State, p: Oid, k: OpStep, o: Oid)
    requires OpEnabled(s, p, k) && o in s.ops
    ensures Grows(s, OpApply(s, p, k), o)
  {}

  lemma GrowsBySub(s: State, c: Cmd, k: SubStep, o: Oid)
    requires SubEnabled(s, c, k) && o in s.ops
    ensures Grows(s, SubApply(s, c, k), o)
  {}

  lemma GrowsByRun(s: State, k: RunStep, o: Oid)
    requires RunEnabled(s, k) && o in s.ops
    ensures Grows(s, RunApply(s, k), o)
  {}

  lemma CompletionsGrow(s: State, a: Action, o: Oid)
    requires Enabled(s, a) && o in s.ops
    ensures Grows(s, Apply(s, a), o)
  {
    match a
    case OfOp(p, k) => GrowsByOp(s, p, k, o);
    case OfSub(c, k) => GrowsBySub(s, c, k, o);
    case OfRun(k) => GrowsByRun(s, k, o);
  }

  /** An operation's callback is deregistered only by whoever completes it, so that a stop request is heard until
      then. */
  lemma {:induction false} ResetMeans(run: seq<State>, acts: seq<Action>, i: nat, o: Oid)
    requires IsRun(run, acts) && i < |run| && o in run[i].ops && run[i].ops[o].reset
    ensures run[i].ops[o].completions == 1
  {
    RunInv(run, acts, i);
    assert OpOk(run[i], o);
    if i > 0 {
      StepOf(run, acts, i - 1);
      if o in run[i - 1].ops && run[i - 1].ops[o].reset {
        ResetMeans(run, acts, i - 1, o);
        CompletionsGrow(run[i - 1], acts[i - 1], o);
      } else {
        Resets(run[i - 1], acts[i - 1], o);
      }
    }
  }

  lemma Resets(s: State, a: Action, o: Oid)
    requires Enabled(s, a) && o in Apply(s, a).ops && Apply(s, a).ops[o].reset && !(o in s.ops && s.ops[o].reset)
    ensures Apply(s, a).ops[o].completions > 0
  {}

  // ---------------------------------------------------------------- the order of the queue and of the keys

  function PushedBy(acts: seq<Action>, i: nat): seq<Cmd>
    requires i <= |acts|
  {
    if i == 0 then []
    else PushedBy(acts, i - 1) + if acts[i - 1].OfSub? && acts[i - 1].sub.DoPush? then [acts[i - 1].c] else []
  }

  function TakenBy(acts: seq<Action>, i: nat): nat
    requires i <= |acts|
  {
    if i == 0 then 0 else TakenBy(acts, i - 1) + if acts[i - 1] == OfRun(Command) then 1 else 0
  }

  lemma QueueByRun(s: State, k: RunStep)
    requires RunEnabled(s, k)
    ensures RunApply(s, k).queue == if k.Command? then s.queue[1..] else s.queue
  {}

  lemma QueueStep(s: State, a: Action)
    requires Enabled(s, a)
    ensures Apply(s, a).queue ==
            if a.OfSub? && a.sub.DoPush? then s.queue + [a.c] else if a == OfRun(Command) then s.queue[1..] else s.queue
  {
    if a.OfRun? { QueueByRun(s, a.run); }
  }

  /** The queue is first in, first out: it holds the commands pushed, but for as many as have been taken. */
  lemma {:induction false} QueueMeans(run: seq<State>, acts: seq<Action>, i: nat)
    requires IsRun(run, acts) && i < |run|
    ensures TakenBy(acts, i) <= |PushedBy(acts, i)| && run[i].queue == PushedBy(acts, i)[TakenBy(acts, i)..]
  {
    if i > 0 {
      QueueMeans(run, acts, i - 1);
      StepOf(run, acts, i - 1);
      QueueStep(run[i - 1], acts[i - 1]);
    }
  }

  // Does the action handle a schedule command?
  predicate Schedules(s: State, a: Action) { a == OfRun(Command) && s.queue != [] && s.queue[0].Sched? }

  function Scheduled(run: seq<State>, acts: seq<Action>, i: nat): nat
    requires i <= |acts| < |run|
  {
    if i == 0 then 0 else Scheduled(run, acts, i - 1) + if Schedules(run[i - 1], acts[i - 1]) then 1 else 0
  }

  lemma CounterByRun(s: State, k: RunStep)
    requires RunEnabled(s, k)
    ensures RunApply(s, k).counter == s.counter + if Schedules(s, OfRun(k)) then 1 else 0
  {}

  lemma CounterStep(s: State, a: Action)
    requires Enabled(s, a)
    ensures Apply(s, a).counter == s.counter + if Schedules(s, a) then 1 else 0
  {
    if a.OfRun? { CounterByRun(s, a.run); }
  }

  lemma {:induction false} CounterMeans(run: seq<State>, acts: seq<Action>, i: nat)
    requires IsRun(run, acts) && i < |run|
    ensures run[i].counter == 1 + Scheduled(run, acts, i)
  {
    if i > 0 {
      CounterMeans(run, acts, i - 1);
      StepOf(run, acts, i - 1);
      CounterStep(run[i - 1], acts[i - 1]);
    }
  }

  /** A schedule command puts its operation in the heap, under its deadline and its number among the schedule
      commands, counted from one. */
  lemma KeyMeans(run: seq<State>, acts: seq<Action>, k: nat)
    requires IsRun(run, acts) && k < |acts| && Schedules(run[k], acts[k])
    ensures var o := run[k].queue[0].o;
      && o in run[k].ops && o in run[k + 1].ops && run[k + 1].heap == run[k].heap + {o}
      && run[k + 1].ops[o].when == When(run[k].ops[o].time, 1 + Scheduled(run, acts, k))
  {
    StepOf(run, acts, k);
    CounterMeans(run, acts, k);
  }

  // ---------------------------------------------------------------- program order of the context's thread

  predicate OfThread(a: Action) { a.OfRun? && !a.run.Tick? && !a.run.RequestStop? }

  // `run()` as it is written.
  predicate Follows(s: State, k: RunStep, next: RunStep) {
    match k
    case Command =>
      if s.queue != [] && s.queue[0].Stop? then next == StopSelf else next == Command || next == QueueEmpty
    case StopSelf => next == Command || next == QueueEmpty
    case QueueEmpty => next.FireFront? || next == NothingDue
    case FireFront(_) => next.FireFront? || next == NothingDue
    case NothingDue => next == Wake
    case Wake => if s.stopRequested then next == Close else next == Command || next == QueueEmpty
    case Close => next.DrainFront? || next == Exit
    case DrainFront(_) => next.DrainFront? || next == Exit
    case _ => false
  }

  ghost predicate Consecutive(acts: seq<Action>, i: nat, j: nat) {
    i < j < |acts| && OfThread(acts[i]) && OfThread(acts[j]) && forall k | i < k < j :: !OfThread(acts[k])
  }

  lemma OthersLeavePc(s: State, a: Action)
    requires Enabled(s, a) && !OfThread(a)
    ensures Apply(s, a).pc == s.pc
  {}

  lemma {:induction false} PcStays(run: seq<State>, acts: seq<Action>, i: nat, j: nat)
    requires IsRun(run, acts) && i <= j < |run| && forall k | i <= k < j :: !OfThread(acts[k])
    ensures run[j].pc == run[i].pc
    decreases j - i
  {
    if i < j {
      PcStays(run, acts, i, j - 1);
      StepOf(run, acts, j - 1);
      OthersLeavePc(run[j - 1], acts[j - 1]);
    }
  }

  lemma StepThen(s: State, k: RunStep, t: State, next: RunStep)
    requires RunEnabled(s, k) && OfThread(OfRun(k)) && RunEnabled(t, next) && OfThread(OfRun(next))
    requires t.pc == RunApply(s, k).pc
    ensures Follows(s, k, next)
  {}

  /** The thread's actions follow one another as the code of `run` does: it empties the queue, fires what is due,
      waits, and closes exactly if it finds the stop flag set, after which it drains the heap. */
  lemma ProgramOrder(run: seq<State>, acts: seq<Action>, i: nat, j: nat)
    requires IsRun(run, acts) && Consecutive(acts, i, j)
    ensures Follows(run[i], acts[i].run, acts[j].run)
  {
    StepOf(run, acts, i);
    StepOf(run, acts, j);
    PcStays(run, acts, i + 1, j);
    StepThen(run[i], acts[i].run, run[j], acts[j].run);
  }

  // The clock was read at action `lo`, and only firings followed.
  ghost predicate SinceRead(acts: seq<Action>, lo: nat, i: nat)
    requires i <= |acts|
  {
    lo < i && acts[lo] == OfRun(QueueEmpty) && forall k | lo < k < i && OfThread(acts[k]) :: acts[k].run.FireFront?
  }

  lemma ReadStep(s: State, a: Action)
    requires Enabled(s, a) && (OfThread(a) ==> a.run.FireFront?)
    ensures Apply(s, a).pc == s.pc
  {}

  lemma {:induction false} ClockRead(run: seq<State>, acts: seq<Action>, lo: nat, i: nat)
    requires IsRun(run, acts) && i <= |acts| && SinceRead(acts, lo, i)
    ensures run[i].pc == Firing(run[lo].now)
    decreases i - lo
  {
    StepOf(run, acts, i - 1);
    if i - 1 > lo {
      ClockRead(run, acts, lo, i - 1);
      ReadStep(run[i - 1], acts[i - 1]);
    }
  }

  /** The clock is read, and the firing loop entered, only when every command pushed so far has been handled. */
  lemma QueueIsEmpty(run: seq<State>, acts: seq<Action>, k: nat)
    requires IsRun(run, acts) && k < |acts| && acts[k] == OfRun(QueueEmpty)
    ensures TakenBy(acts, k) == |PushedBy(acts, k)|
  {
    StepOf(run, acts, k);
    QueueMeans(run, acts, k);
  }

  /** The firing loop goes by the clock read when the queue was found empty: what it fires was due then, and it
      ends only when nothing in the heap is. */
  lemma FiresTheDue(run: seq<State>, acts: seq<Action>, lo: nat, j: nat)
    requires IsRun(run, acts) && j < |acts| && SinceRead(acts, lo, j) && OfThread(acts[j])
    ensures acts[j].run.FireFront? ==>
              acts[j].run.o in run[j].ops && run[j].ops[acts[j].run.o].time <= run[lo].now
    ensures acts[j].run == NothingDue ==>
              forall o | o in run[j].heap :: o in run[j].ops && run[j].ops[o].time > run[lo].now
  {
    StepOf(run, acts, j);
    ClockRead(run, acts, lo, j);
    RunInv(run, acts, j);
    var s := run[j];
    if acts[j].run == NothingDue && s.heap != {} {
      var f :| IsFront(s, f) && s.ops[f].time > s.pc.now;
      forall o | o in s.heap ensures o in s.ops && s.ops[o].time > s.pc.now {
        assert OpOk(s, o) && OpOk(s, f);
        assert o != f ==> Less(s.ops[f].when, s.ops[o].when);
      }
    }
  }

  lemma {:induction false} LeastOf(s: State, h: set<Oid>) returns (o: Oid)
    requires HeapOk(s) && h <= s.heap && h != {}
    ensures o in h && forall p | p in h && p != o :: Less(s.ops[o].when, s.ops[p].when)
    decreases |h|
  {
    var q :| q in h;
    if h == {q} {
      o := q;
    } else {
      var r := LeastOf(s, h - {q});
      assert s.ops[q].when.counter != s.ops[r].when.counter;
      o := if Less(s.ops[q].when, s.ops[r].when) then q else r;
    }
  }

  lemma HasFront(s: State) returns (o: Oid)
    requires HeapOk(s) && s.heap != {}
    ensures IsFront(s, o)
  {
    o := LeastOf(s, s.heap);
  }

  /** The thread can always go on until it has exited, unless it closes and a submission is under way. */
  lemma NeverStuck(run: seq<State>, acts: seq<Action>, i: nat)
    requires IsRun(run, acts) && i < |run| && !run[i].pc.Exited?
    ensures (exists k :: OfThread(OfRun(k)) && RunEnabled(run[i], k)) || (run[i].pc.Closing? && run[i].inFlight != 0)
  {
    RunInv(run, acts, i);
    var s := run[i];
    match s.pc
    case Poll =>
      if s.queue == [] {
        assert RunEnabled(s, QueueEmpty);
      } else {
        assert CmdOk(s, s.queue[0]) && RunEnabled(s, Command);
      }
    case Second(o) => assert CmdOk(s, Cmd.Stop(o)) && RunEnabled(s, StopSelf);
    case Firing(now) =>
      if s.heap == {} {
        assert RunEnabled(s, NothingDue);
      } else {
        var o := HasFront(s);
        assert RunEnabled(s, if s.ops[o].time <= now then FireFront(o) else NothingDue);
      }
    case Waiting => assert RunEnabled(s, Wake);
    case Closing => assert s.inFlight == 0 ==> RunEnabled(s, Close);
    case Draining =>
      if s.heap == {} {
        assert RunEnabled(s, Exit);
      } else {
        var o := HasFront(s);
        assert RunEnabled(s, DrainFront(o));
      }
    case Exited =>
  }

  // ---------------------------------------------------------------- program order of a submission

  predicate OfC(a: Action, c: Cmd) { a.OfSub? && a.c == c }

  // `schedule()` as it is written.
  predicate FollowsSub(s: State, k: SubStep, next: SubStep) {
    match k
    case DoFetch => next == if s.inFlight < 0 then DoRefuse else DoPush
    case DoPush => next == DoLeave
    case DoRefuse => next == DoReclose
    case _ => false
  }

  lemma OthersLeaveSub(s: State, a: Action, c: Cmd)
    requires Inv(s) && Enabled(s, a) && !OfC(a, c) && c in s.subs
    ensures c in Apply(s, a).subs && Apply(s, a).subs[c] == s.subs[c]
  {
    match a
    case OfOp(o, k) => OpSubmits(s, o, k);
    case OfRun(k) => RunLeavesSub(s, k, c);
    case OfSub(_, _) =>
  }

  lemma RunLeavesSub(s: State, k: RunStep, c: Cmd)
    requires RunEnabled(s, k) && c in s.subs
    ensures c in RunApply(s, k).subs && RunApply(s, k).subs[c] == s.subs[c]
  {}

  lemma {:induction false} SubStays(run: seq<State>, acts: seq<Action>, i: nat, j: nat, c: Cmd)
    requires IsRun(run, acts) && i <= j < |run| && c in run[i].subs && forall k | i <= k < j :: !OfC(acts[k], c)
    ensures c in run[j].subs && run[j].subs[c] == run[i].subs[c]
    decreases j - i
  {
    if i < j {
      SubStays(run, acts, i, j - 1, c);
      RunInv(run, acts, j - 1);
      StepOf(run, acts, j - 1);
      OthersLeaveSub(run[j - 1], acts[j - 1], c);
    }
  }

  /** The steps of a submission follow one another as the code of `schedule` does, and there are three of them. */
  lemma SubmissionOrder(run: seq<State>, acts: seq<Action>, i: nat, j: nat, c: Cmd)
    requires IsRun(run, acts) && i < j < |acts| && OfC(acts[i], c) && OfC(acts[j], c)
    requires forall k | i < k < j :: !OfC(acts[k], c)
    ensures FollowsSub(run[i], acts[i].sub, acts[j].sub)
  {
    StepOf(run, acts, i);
    StepOf(run, acts, j);
    SubStays(run, acts, i + 1, j, c);
  }

  function NextSub(p: SubPc): SubStep {
    match p
    case Fetch => DoFetch
    case Push => DoPush
    case Leave => DoLeave
    case Refuse(_) => DoRefuse
    case _ => DoReclose
  }

  /** A submission that is not over can take its next step, and so can an operation before its exchange. Operations
      are started, time passes and stops are requested at any time. */
  lemma OthersNeverStuck(run: seq<State>, acts: seq<Action>, i: nat)
    requires IsRun(run, acts) && i < |run|
    ensures forall c | c in run[i].subs && !run[i].subs[c].Out? :: exists k :: SubEnabled(run[i], c, k)
    ensures forall o | o in run[i].ops && run[i].ops[o].start.Armed? :: OpEnabled(run[i], o, Exchange)
    ensures forall o | o in run[i].ops && !run[i].ops[o].fired && !run[i].ops[o].reset :: OpEnabled(run[i], o, Fire)
    ensures forall o | o in run[i].ops && run[i].ops[o].completions == 1 :: OpEnabled(run[i], o, Reset)
    ensures forall o, time :: OpEnabled(run[i], o, Start(time)) <==> o !in run[i].ops
    ensures RunEnabled(run[i], Tick) && RunEnabled(run[i], RequestStop)
  {
    RunInv(run, acts, i);
    var s := run[i];
    forall c | c in s.subs && !s.subs[c].Out? ensures exists k :: SubEnabled(s, c, k) {
      assert CmdOk(s, c);
      assert SubEnabled(s, c, NextSub(s.subs[c]));
    }
  }
}

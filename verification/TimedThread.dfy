/**
 `timed_thread_context` and its operations: the race between the timer, the stop request and the closing of
 the context, settled by a reference count in each operation.

 Any number of operations and threads; every access to an atomic is one step. The command queue is a FIFO,
 the heap a priority order; waiting on the condition variable may end at any time.
 */
module TimedThread {
  import opened Basics

  type Oid = nat

  // ---------------------------------------------------------------- the order of the heap

  datatype When = When(time: nat, counter: nat)

  // `operator<` of `when_type`
  predicate Less(l: When, r: When) { l.time < r.time || (!(r.time < l.time) && l.counter < r.counter) }

  /** Time first, then submission: a strict total order on entries with different counters. */
  lemma LessIsTotal(a: When, b: When, c: When)
    ensures !Less(a, a)
    ensures Less(a, b) && Less(b, c) ==> Less(a, c)
    ensures a.counter != b.counter ==> Less(a, b) || Less(b, a)
    ensures Less(a, b) <==> a.time < b.time || (a.time == b.time && a.counter < b.counter)
  {}

  // ---------------------------------------------------------------- the steps

  // The two things an operation may submit to the context: itself, and its `stop_op_`.
  datatype Cmd = Sched(o: Oid) | Stop(o: Oid)

  // Where `schedule(op)` is: before the fetch_add, before the push, before the fetch_sub; or, after the
  // fetch_add returned `n < 0`, before the inline completion, and before the exchange that follows it.
  datatype SubPc = Fetch | Push | Leave | Refuse(n: int) | Reclose(n: int) | Out

  datatype Kind = Value | Stopped

  // `start()`: the stop callback is in place; the exchange failed; the exchange succeeded.
  datatype StartPc = Armed | Refused | Going

  // `fired`: the stop callback has run; `reset`: it is deregistered. `completions` and `result` are history.
  datatype Op = Op(time: nat, start: StartPc, ref: int, fired: bool, reset: bool,
    when: When, completions: nat, result: Kind)

  // `Second(o)`: between the two callbacks of a stop command.
  datatype RunPc = Poll | Second(o: Oid) | Firing(now: nat) | Waiting | Closing | Draining | Exited

  // `done` and `refused` are history: the commands whose callback has run, and how many submissions found the
  // count negative.
  datatype State = State(
    ops: map<Oid, Op>, subs: map<Cmd, SubPc>, queue: seq<Cmd>, heap: set<Oid>, counter: nat,
    inFlight: int, stopRequested: bool, pc: RunPc, now: nat, done: set<Cmd>, refused: nat)

  const MAX_REFUSED: nat := 0x4000_0000_0000_0000
  const CLOSED: int := -0x4000_0000_0000_0000

  datatype OpStep = Start(time: nat) | Fire | Exchange | Reset

  datatype SubStep = DoFetch | DoPush | DoLeave | DoRefuse | DoReclose

  datatype RunStep =
    | Tick | RequestStop | Command | StopSelf | QueueEmpty | FireFront(o: Oid) | NothingDue | Wake | Close
    | DrainFront(o: Oid) | Exit

  datatype Action = OfOp(o: Oid, op: OpStep) | OfSub(c: Cmd, sub: SubStep) | OfRun(run: RunStep)

  predicate OpEnabled(s: State, o: Oid, k: OpStep) {
    match k
    case Start(_) => o !in s.ops
    case Fire => o in s.ops && !s.ops[o].fired && !s.ops[o].reset
    case Exchange => o in s.ops && s.ops[o].start.Armed?
    case Reset => o in s.ops && s.ops[o].completions > 0
  }

  function OpApply(s: State, o: Oid, k: OpStep): State
    requires OpEnabled(s, o, k)
  {
    match k
    case Start(time) => s.(ops := s.ops[o := Op(time, Armed, 0, false, false, When(time, 0), 0, Stopped)])
    case Fire =>
      var s' := s.(ops := s.ops[o := s.ops[o].(fired := true, ref := s.ops[o].ref + 1)]);
      if s.ops[o].ref == 1 then s'.(subs := s.subs[Cmd.Stop(o) := Fetch]) else s'
    case Exchange =>
      if s.ops[o].ref == 0 then
        s.(ops := s.ops[o := s.ops[o].(start := Going, ref := 1)], subs := s.subs[Sched(o) := Fetch])
      else
        s.(ops := s.ops[o := s.ops[o].(start := Refused, completions := s.ops[o].completions + 1, result := Stopped)])
    case Reset => s.(ops := s.ops[o := s.ops[o].(reset := true)])
  }

  // The callbacks `set_value_` and `set_stopped_` of the two commands: whoever takes the count to zero completes.
  function Consumed(op: Op, k: Kind): Op {
    if op.ref == 1 then op.(ref := 0, completions := op.completions + 1, result := k) else op.(ref := op.ref - 1)
  }

  function Consume(s: State, c: Cmd, k: Kind): State
    requires c.o in s.ops
  {
    s.(ops := s.ops[c.o := Consumed(s.ops[c.o], k)], done := s.done + {c})
  }

  predicate SubEnabled(s: State, c: Cmd, k: SubStep) {
    c in s.subs && c.o in s.ops &&
    match k
    case DoFetch => s.subs[c].Fetch?
    case DoPush => s.subs[c].Push?
    case DoLeave => s.subs[c].Leave?
    case DoRefuse => s.subs[c].Refuse?
    case DoReclose => s.subs[c].Reclose?
  }

  function SubApply(s: State, c: Cmd, k: SubStep): State
    requires SubEnabled(s, c, k)
  {
    match k
    case DoFetch =>
      if s.inFlight < 0 then
        s.(inFlight := s.inFlight + 1, refused := s.refused + 1, subs := s.subs[c := Refuse(s.inFlight)])
      else
        s.(inFlight := s.inFlight + 1, subs := s.subs[c := Push])
    case DoPush => s.(queue := s.queue + [c], subs := s.subs[c := Leave])
    case DoLeave => s.(inFlight := s.inFlight - 1, subs := s.subs[c := Out])
    case DoRefuse => Consume(s, c, Stopped).(subs := s.subs[c := Reclose(s.subs[c].n)])
    case DoReclose =>
      s.(inFlight := if s.inFlight == s.subs[c].n then CLOSED else s.inFlight, subs := s.subs[c := Out])
  }

  // `heap_.front()`
  predicate IsFront(s: State, o: Oid) {
    o in s.heap && o in s.ops && forall p :: p in s.heap && p in s.ops && p != o ==> Less(s.ops[o].when, s.ops[p].when)
  }

  ghost predicate RunEnabled(s: State, k: RunStep) {
    match k
    case Tick => true
    case RequestStop => true
    case Command => s.pc.Poll? && s.queue != [] && s.queue[0].o in s.ops
    case StopSelf => s.pc.Second? && s.pc.o in s.ops
    case QueueEmpty => s.pc.Poll? && s.queue == []
    case FireFront(o) => s.pc.Firing? && IsFront(s, o) && s.ops[o].time <= s.pc.now
    case NothingDue => s.pc.Firing? && (s.heap == {} || exists o :: IsFront(s, o) && s.ops[o].time > s.pc.now)
    case Wake => s.pc.Waiting?
    case Close => s.pc.Closing? && s.inFlight == 0
    case DrainFront(o) => s.pc.Draining? && IsFront(s, o)
    case Exit => s.pc.Draining? && s.heap == {}
  }

  // The heap's entry is taken out and its callback called.
  function TakenOut(s: State, o: Oid, k: Kind): State
    requires o in s.ops
  {
    Consume(s.(heap := s.heap - {o}), Sched(o), k)
  }

  function Inserted(s: State, o: Oid): State
    requires o in s.ops
  {
    s.(ops := s.ops[o := s.ops[o].(when := When(s.ops[o].time, s.counter))],
       counter := s.counter + 1, heap := s.heap + {o})
  }

  // A command from the queue; a stop command's own callback follows as the next step.
  function Handled(s: State, c: Cmd): State
    requires c.o in s.ops
  {
    match c
    case Sched(o) => Inserted(s, o)
    case Stop(o) => (if o in s.heap then TakenOut(s, o, Stopped) else s).(pc := Second(o))
  }

  ghost function RunApply(s: State, k: RunStep): State
    requires RunEnabled(s, k)
  {
    match k
    case Tick => s.(now := s.now + 1)
    case RequestStop => s.(stopRequested := true)
    case Command => Handled(s.(queue := s.queue[1..]), s.queue[0])
    case StopSelf => Consume(s, Cmd.Stop(s.pc.o), Stopped).(pc := Poll)
    case QueueEmpty => s.(pc := Firing(s.now))
    case FireFront(o) => TakenOut(s, o, Value)
    case NothingDue => s.(pc := Waiting)
    case Wake => s.(pc := if s.stopRequested then Closing else Poll)
    case Close => s.(inFlight := CLOSED, pc := Draining)
    case DrainFront(o) => TakenOut(s, o, Stopped)
    case Exit => s.(pc := Exited)
  }

  ghost predicate Enabled(s: State, a: Action) {
    match a
    case OfOp(o, k) => OpEnabled(s, o, k)
    case OfSub(c, k) => SubEnabled(s, c, k)
    case OfRun(k) => RunEnabled(s, k)
  }

  ghost function Apply(s: State, a: Action): State
    requires Enabled(s, a)
  {
    match a
    case OfOp(o, k) => OpApply(s, o, k)
    case OfSub(c, k) => SubApply(s, c, k)
    case OfRun(k) => RunApply(s, k)
  }

  predicate Init(s: State) {
    s == State(map[], map[], [], {}, 1, 0, false, Poll, 0, {}, 0)
  }

  // ---------------------------------------------------------------- the invariant

  // A command as its operation sees it: not submitted, submitted and not handled, handled.
  datatype Status = Absent | Open | Done

  function StatusOf(s: State, c: Cmd): Status {
    if c !in s.subs then Absent else if c in s.done then Done else Open
  }

  function Token(a: Status): int { if a.Open? then 1 else 0 }

  // The count is the number of submitted commands of the operation still to be handled, and while there
  // are any the operation is not complete.
  predicate OpFine(op: Op, a: Status, b: Status, now: nat) {
    && op.completions <= 1
    && (op.start.Armed? ==> op.ref == (if op.fired then 1 else 0) && op.completions == 0)
    && (op.start.Refused? ==> op.completions == 1 && op.result == Stopped && op.fired)
    && (op.start.Going? <==> !a.Absent?)
    && (op.start.Going? && op.completions == 0 ==> op.ref == Token(a) + Token(b) > 0 && (op.fired <==> !b.Absent?))
    && (op.start.Going? && op.completions == 1 ==>
          Token(a) + Token(b) == 0 && 0 <= op.ref <= 1 && (op.ref == 1 ==> op.fired))
    && (!op.start.Going? ==> b.Absent?) && (!b.Absent? ==> op.fired)
    && (op.completions == 1 && op.result == Value ==> op.time <= now)
    && (op.when.time == op.time)
  }

  predicate OpOk(s: State, o: Oid)
    requires o in s.ops
  {
    OpFine(s.ops[o], StatusOf(s, Sched(o)), StatusOf(s, Cmd.Stop(o)), s.now)
  }

  predicate InHeap(s: State, c: Cmd) { c.Sched? && c.o in s.heap }

  predicate InHand(s: State, c: Cmd) { c.Stop? && s.pc == Second(c.o) }

  predicate Early(p: SubPc) { p.Fetch? || p.Push? || p.Refuse? }

  // Where a command is: under way, or handled, or in exactly one of queue, heap and the thread's hand.
  predicate CmdOk(s: State, c: Cmd) {
    && (c in s.subs ==> c.o in s.ops)
    && (c in s.done || c in s.queue || InHeap(s, c) || InHand(s, c) ==> c in s.subs && !Early(s.subs[c]))
    && (c in s.queue ==> !InHeap(s, c) && !InHand(s, c) && c !in s.done)
    && (InHeap(s, c) || InHand(s, c) ==> c !in s.done)
    && (c in s.subs && c !in s.done && !Early(s.subs[c]) ==> c in s.queue || InHeap(s, c) || InHand(s, c))
    && (c in s.subs && (s.subs[c].Refuse? || s.subs[c].Reclose?) ==>
          Shut(s) && s.subs[c].n < CLOSED + s.refused && s.subs[c].n < 0)
  }

  predicate Shut(s: State) { s.pc.Draining? || s.pc.Exited? }

  ghost function InTransit(subs: map<Cmd, SubPc>): set<Cmd> { set c | c in subs && (subs[c].Push? || subs[c].Leave?) }

  // The count of submissions; once it is closed, what may still reach the queue.
  ghost predicate CountOk(s: State) {
    if Shut(s) then
      && s.inFlight == CLOSED + s.refused + |InTransit(s.subs)|
      && (InTransit(s.subs) != {} ==> s.refused >= MAX_REFUSED)
    else s.refused == 0 && s.inFlight == |InTransit(s.subs)|
  }

  ghost predicate HeapOk(s: State) {
    && (forall o | o in s.heap :: o in s.ops && s.ops[o].when.counter < s.counter)
    && (forall o, p | o in s.heap && p in s.heap && o != p :: s.ops[o].when.counter != s.ops[p].when.counter)
    && (s.pc.Exited? ==> s.heap == {})
    && (s.pc.Firing? ==> s.pc.now <= s.now)
  }

  ghost predicate Inv(s: State) {
    && Distinct(s.queue) && CountOk(s) && HeapOk(s)
    && (forall o | o in s.ops :: OpOk(s, o))
    && (forall c :: CmdOk(s, c))
  }

  lemma InitInv(s: State)
    requires Init(s)
    ensures Inv(s)
  {
    assert InTransit(s.subs) == {};
  }

  // ---------------------------------------------------------------- what a step leaves alone

  lemma OpFrame(s: State, s': State, p: Oid)
    requires p in s.ops && p in s'.ops && s'.ops[p] == s.ops[p] && s.now <= s'.now && OpOk(s, p)
    requires StatusOf(s', Sched(p)) == StatusOf(s, Sched(p)) && StatusOf(s', Cmd.Stop(p)) == StatusOf(s, Cmd.Stop(p))
    ensures OpOk(s', p)
  {}

  predicate SamePlace(s: State, s': State, c: Cmd) {
    && (c in s'.subs <==> c in s.subs) && (c in s.subs ==> s'.subs[c] == s.subs[c])
    && (c in s'.queue <==> c in s.queue) && (c in s'.done <==> c in s.done)
    && (InHeap(s', c) <==> InHeap(s, c)) && (InHand(s', c) <==> InHand(s, c))
  }

  lemma CmdFrame(s: State, s': State, c: Cmd)
    requires CmdOk(s, c) && SamePlace(s, s', c) && s.refused <= s'.refused && (Shut(s) ==> Shut(s'))
    requires c.o in s.ops ==> c.o in s'.ops
    ensures CmdOk(s', c)
  {}

  // ---------------------------------------------------------------- the callbacks

  lemma ConsumedFine(op: Op, a: Status, b: Status, now: nat, k: Kind)
    requires OpFine(op, a, b, now) && (k == Value ==> op.time <= now)
    ensures a.Open? ==> OpFine(Consumed(op, k), Done, b, now)
    ensures b.Open? ==> OpFine(Consumed(op, k), a, Done, now)
  {}

  lemma ConsumeOps(s: State, c: Cmd, k: Kind, p: Oid)
    requires c.o in s.ops && c in s.subs && c !in s.done && p in s.ops && OpOk(s, p)
    requires k == Value ==> s.ops[c.o].time <= s.now
    ensures OpOk(Consume(s, c, k), p)
  {
    if c.o == p {
      ConsumedFine(s.ops[p], StatusOf(s, Sched(p)), StatusOf(s, Cmd.Stop(p)), s.now, k);
    } else {
      OpFrame(s, Consume(s, c, k), p);
    }
  }

  // ---------------------------------------------------------------- steps of operations

  lemma OpStepSelf(op: Op, a: Status, b: Status, now: nat)
    requires OpFine(op, a, b, now)
    ensures !op.fired && op.ref == 1 ==> b.Absent? && OpFine(op.(fired := true, ref := 2), a, Open, now)
    ensures !op.fired && op.ref != 1 ==> OpFine(op.(fired := true, ref := op.ref + 1), a, b, now)
    ensures op.start.Armed? && op.ref == 0 ==> a.Absent? && OpFine(op.(start := Going, ref := 1), Open, b, now)
    ensures op.start.Armed? && op.ref != 0 ==>
              OpFine(op.(start := Refused, completions := op.completions + 1, result := Stopped), a, b, now)
    ensures OpFine(op.(reset := true), a, b, now)
  {}

  lemma OpStepOp(s: State, o: Oid, k: OpStep, p: Oid)
    requires OpEnabled(s, o, k) && p in OpApply(s, o, k).ops && (p in s.ops ==> OpOk(s, p))
    requires CmdOk(s, Sched(p)) && CmdOk(s, Cmd.Stop(p))
    ensures OpOk(OpApply(s, o, k), p)
  {
    if p == o && p in s.ops {
      OpStepSelf(s.ops[o], StatusOf(s, Sched(o)), StatusOf(s, Cmd.Stop(o)), s.now);
    }
  }

  // Which command a step of an operation submits, if any.
  lemma OpSubmits(s: State, o: Oid, k: OpStep)
    requires OpEnabled(s, o, k) && (o in s.ops ==> OpOk(s, o))
    ensures var subs := OpApply(s, o, k).subs;
      || subs == s.subs
      || (subs == s.subs[Sched(o) := Fetch] && Sched(o) !in s.subs)
      || (subs == s.subs[Cmd.Stop(o) := Fetch] && Cmd.Stop(o) !in s.subs)
  {
    if o in s.ops { OpStepSelf(s.ops[o], StatusOf(s, Sched(o)), StatusOf(s, Cmd.Stop(o)), s.now); }
  }

  lemma OpStepCmd(s: State, o: Oid, k: OpStep, c: Cmd)
    requires OpEnabled(s, o, k) && (o in s.ops ==> OpOk(s, o)) && CmdOk(s, c)
    ensures CmdOk(OpApply(s, o, k), c)
  {
    OpSubmits(s, o, k);
  }

  lemma HeapFrame(s: State, s': State)
    requires HeapOk(s) && s'.heap == s.heap && s'.pc == s.pc && s'.now == s.now && s'.counter == s.counter
    requires forall o | o in s.heap :: o in s'.ops && s'.ops[o].when == s.ops[o].when
    ensures HeapOk(s')
  {}

  lemma OpHeap(s: State, o: Oid, k: OpStep)
    requires HeapOk(s) && OpEnabled(s, o, k)
    ensures HeapOk(OpApply(s, o, k))
  {
    var s' := OpApply(s, o, k);
    forall p | p in s.heap ensures p in s'.ops && s'.ops[p].when == s.ops[p].when {
      assert p in s.ops;
    }
    HeapFrame(s, s');
  }

  lemma OpStepInv(s: State, o: Oid, k: OpStep)
    requires Inv(s) && OpEnabled(s, o, k)
    ensures Inv(OpApply(s, o, k))
  {
    var s' := OpApply(s, o, k);
    OpSubmits(s, o, k);
    assert InTransit(s'.subs) == InTransit(s.subs);
    OpHeap(s, o, k);
    forall p | p in s'.ops ensures OpOk(s', p) {
      assert CmdOk(s, Sched(p)) && CmdOk(s, Cmd.Stop(p));
      OpStepOp(s, o, k, p);
    }
    forall c ensures CmdOk(s', c) {
      assert CmdOk(s, c);
      OpStepCmd(s, o, k, c);
    }
  }

  // ---------------------------------------------------------------- steps of submissions

  lemma TransitUpdate(subs: map<Cmd, SubPc>, c: Cmd, p: SubPc)
    requires c in subs
    ensures InTransit(subs[c := p]) == if p.Push? || p.Leave? then InTransit(subs) + {c} else InTransit(subs) - {c}
    ensures |InTransit(subs[c := p])| == |InTransit(subs)|
              + (if p.Push? || p.Leave? then 1 else 0) - if subs[c].Push? || subs[c].Leave? then 1 else 0
  {
    assert c in InTransit(subs) <==> subs[c].Push? || subs[c].Leave?;
  }

  // Only while the context is open, or after too many refusals, does a submission go on to the queue.
  lemma SubCount(s: State, c: Cmd, k: SubStep)
    requires CountOk(s) && SubEnabled(s, c, k) && CmdOk(s, c)
    ensures CountOk(SubApply(s, c, k))
  {
    TransitUpdate(s.subs, c, SubApply(s, c, k).subs[c]);
  }

  lemma SubStepOp(s: State, c: Cmd, k: SubStep, p: Oid)
    requires SubEnabled(s, c, k) && CmdOk(s, c) && p in s.ops && OpOk(s, p)
    ensures OpOk(SubApply(s, c, k), p)
  {
    if k.DoRefuse? {
      ConsumeOps(s, c, Stopped, p);
      OpFrame(Consume(s, c, Stopped), SubApply(s, c, k), p);
    } else {
      OpFrame(s, SubApply(s, c, k), p);
    }
  }

  lemma SubStepSelf(s: State, c: Cmd, k: SubStep)
    requires SubEnabled(s, c, k) && CmdOk(s, c) && CountOk(s)
    ensures CmdOk(SubApply(s, c, k), c)
  {}

  lemma SubStepOther(s: State, c: Cmd, k: SubStep, d: Cmd)
    requires SubEnabled(s, c, k) && CmdOk(s, d) && d != c
    ensures CmdOk(SubApply(s, c, k), d)
  {
    CmdFrame(s, SubApply(s, c, k), d);
  }

  lemma SubHeap(s: State, c: Cmd, k: SubStep)
    requires SubEnabled(s, c, k) && HeapOk(s) && Distinct(s.queue) && (k.DoPush? ==> c !in s.queue)
    ensures HeapOk(SubApply(s, c, k)) && Distinct(SubApply(s, c, k).queue)
  {}

  lemma SubStepInv(s: State, c: Cmd, k: SubStep)
    requires Inv(s) && SubEnabled(s, c, k)
    ensures Inv(SubApply(s, c, k))
  {
    var s' := SubApply(s, c, k);
    assert CmdOk(s, c);
    SubCount(s, c, k);
    SubHeap(s, c, k);
    SubStepSelf(s, c, k);
    forall p | p in s'.ops ensures OpOk(s', p) { SubStepOp(s, c, k, p); }
    forall d | d != c ensures CmdOk(s', d) {
      assert CmdOk(s, d);
      SubStepOther(s, c, k, d);
    }
  }

  // ---------------------------------------------------------------- steps of the context's thread

  // Taking an entry out of the heap, in whatever position the thread is.
  lemma TakenOutInv(s: State, o: Oid, k: Kind)
    requires Inv(s) && o in s.heap && (k == Value ==> o in s.ops && s.ops[o].time <= s.now)
    ensures o in s.ops && Inv(TakenOut(s, o, k))
  {
    var s', c := TakenOut(s, o, k), Sched(o);
    assert CmdOk(s, c);
    forall p | p in s'.ops ensures OpOk(s', p) {
      OpFrame(s, s.(heap := s.heap - {o}), p);
      ConsumeOps(s.(heap := s.heap - {o}), c, k, p);
    }
    forall d ensures CmdOk(s', d) {
      assert CmdOk(s, d);
      if d != c { CmdFrame(s, s', d); }
    }
  }

  // A command that the thread holds and that is in none of its places.
  ghost predicate Holding(s: State, c: Cmd) {
    && Distinct(s.queue) && CountOk(s) && HeapOk(s)
    && (forall o | o in s.ops :: OpOk(s, o))
    && (forall d | d != c :: CmdOk(s, d))
    && c in s.subs && c.o in s.ops && c !in s.done && !Early(s.subs[c])
    && c !in s.queue && !InHeap(s, c) && !InHand(s, c)
    && (s.subs[c].Reclose? ==> Shut(s) && s.subs[c].n < CLOSED + s.refused && s.subs[c].n < 0)
  }

  lemma PopCommand(s: State)
    requires Inv(s) && s.pc.Poll? && s.queue != []
    ensures Holding(s.(queue := s.queue[1..]), s.queue[0])
  {
    var s', c := s.(queue := s.queue[1..]), s.queue[0];
    DistinctTail(s.queue);
    assert CmdOk(s, c);
    forall p | p in s'.ops ensures OpOk(s', p) { OpFrame(s, s', p); }
    forall d | d != c ensures CmdOk(s', d) {
      assert CmdOk(s, d);
      CmdFrame(s, s', d);
    }
  }

  lemma InsertedInv(s: State, o: Oid)
    requires Holding(s, Sched(o)) && s.pc.Poll?
    ensures Inv(Inserted(s, o))
  {
    var s', c := Inserted(s, o), Sched(o);
    forall p | p in s'.ops ensures OpOk(s', p) {
      assert OpOk(s, p);
      if p != o { OpFrame(s, s', p); }
    }
    forall d ensures CmdOk(s', d) {
      if d != c { CmdFrame(s, s', d); }
    }
  }

  lemma ToHand(s: State, o: Oid)
    requires Holding(s, Cmd.Stop(o)) && s.pc.Poll?
    ensures Inv(s.(pc := Second(o)))
  {
    var s', c := s.(pc := Second(o)), Cmd.Stop(o);
    forall p | p in s'.ops ensures OpOk(s', p) { OpFrame(s, s', p); }
    forall d ensures CmdOk(s', d) {
      if d != c { CmdFrame(s, s', d); }
    }
  }

  lemma HandledInv(s: State, c: Cmd)
    requires Holding(s, c) && s.pc.Poll?
    ensures Inv(Handled(s, c))
  {
    match c
    case Sched(o) => InsertedInv(s, o);
    case Stop(o) =>
      ToHand(s, o);
      if o in s.heap { TakenOutInv(s.(pc := Second(o)), o, Stopped); }
  }

  lemma StopSelfInv(s: State)
    requires Inv(s) && RunEnabled(s, StopSelf)
    ensures Inv(RunApply(s, StopSelf))
  {
    var s', c := RunApply(s, StopSelf), Cmd.Stop(s.pc.o);
    assert CmdOk(s, c);
    forall p | p in s'.ops ensures OpOk(s', p) {
      ConsumeOps(s, c, Stopped, p);
      OpFrame(Consume(s, c, Stopped), s', p);
    }
    forall d ensures CmdOk(s', d) {
      assert CmdOk(s, d);
      if d != c { CmdFrame(s, s', d); }
    }
  }

  // The steps that only move the thread on.
  lemma PlainInv(s: State, s': State)
    requires Inv(s) && !s.pc.Second? && !s'.pc.Second?
    requires s' == s.(pc := s'.pc, now := s'.now, stopRequested := s'.stopRequested, inFlight := s'.inFlight)
    requires s.now <= s'.now && (s'.pc.Firing? ==> s'.pc.now <= s'.now) && (s'.pc.Exited? ==> s.heap == {})
    requires if Shut(s) then Shut(s') && s'.inFlight == s.inFlight
             else s'.inFlight == if Shut(s') then CLOSED else s.inFlight
    requires Shut(s') && !Shut(s) ==> s.inFlight == 0
    ensures Inv(s')
  {
    forall p | p in s'.ops ensures OpOk(s', p) { OpFrame(s, s', p); }
    forall d ensures CmdOk(s', d) {
      assert CmdOk(s, d);
      CmdFrame(s, s', d);
    }
  }

  lemma AnytimeInv(s: State, now: nat, stop: bool)
    requires Inv(s) && s.now <= now
    ensures Inv(s.(now := now, stopRequested := stop))
  {
    var s' := s.(now := now, stopRequested := stop);
    forall p | p in s'.ops ensures OpOk(s', p) { OpFrame(s, s', p); }
    forall d ensures CmdOk(s', d) {
      assert CmdOk(s, d);
      CmdFrame(s, s', d);
    }
  }

  lemma RunStepInv(s: State, k: RunStep)
    requires Inv(s) && RunEnabled(s, k)
    ensures Inv(RunApply(s, k))
  {
    match k
    case Tick => AnytimeInv(s, s.now + 1, s.stopRequested);
    case RequestStop => AnytimeInv(s, s.now, true);
    case Command =>
      PopCommand(s);
      HandledInv(s.(queue := s.queue[1..]), s.queue[0]);
    case StopSelf => StopSelfInv(s);
    case FireFront(o) => TakenOutInv(s, o, Value);
    case DrainFront(o) => TakenOutInv(s, o, Stopped);
    case _ => PlainInv(s, RunApply(s, k));
  }

  /** Every step of every thread keeps the invariant. */
  lemma StepInv(s: State, a: Action)
    requires Inv(s) && Enabled(s, a)
    ensures Inv(Apply(s, a))
  {
    match a
    case OfOp(o, k) => OpStepInv(s, o, k);
    case OfSub(c, k) => SubStepInv(s, c, k);
    case OfRun(k) => RunStepInv(s, k);
  }

  /** Any interleaving. */
  ghost predicate IsRun(run: seq<State>, acts: seq<Action>) {
    |run| == |acts| + 1 && Init(run[0]) && forall i | 0 <= i < |acts| :: Step(run, acts, i)
  }

  ghost predicate Step(run: seq<State>, acts: seq<Action>, i: nat)
    requires i < |acts| < |run|
  {
    Enabled(run[i], acts[i]) && run[i + 1] == Apply(run[i], acts[i])
  }

  lemma {:induction false} RunInv(run: seq<State>, acts: seq<Action>, i: nat)
    requires IsRun(run, acts) && i < |run|
    ensures Inv(run[i])
  {
    if i == 0 {
      InitInv(run[0]);
    } else {
      RunInv(run, acts, i - 1);
      assert Step(run, acts, i - 1);
      StepInv(run[i - 1], acts[i - 1]);
    }
  }

  // ---------------------------------------------------------------- what holds over whole runs

  /** Whatever races with what, an operation completes at most once, and with a value only after its
      deadline. */
  lemma CompletesOnce(run: seq<State>, acts: seq<Action>, i: nat, o: Oid)
    requires IsRun(run, acts) && i < |run| && o in run[i].ops
    ensures run[i].ops[o].completions <= 1
    ensures run[i].ops[o].completions == 1 && run[i].ops[o].result == Value ==> run[i].ops[o].time <= run[i].now
  {
    RunInv(run, acts, i);
    assert OpOk(run[i], o);
  }

  /** When the context's thread has exited and no submission is under way, an operation that was started
      has completed exactly if none of its commands was left in the queue. */
  lemma CompletedIffNotLeftBehind(run: seq<State>, acts: seq<Action>, i: nat, o: Oid)
    requires IsRun(run, acts) && i < |run| && o in run[i].ops && !run[i].ops[o].start.Armed?
    requires run[i].pc.Exited? && forall c | c in run[i].subs :: run[i].subs[c].Out?
    ensures run[i].ops[o].completions == 1 <==> Sched(o) !in run[i].queue && Cmd.Stop(o) !in run[i].queue
  {
    RunInv(run, acts, i);
    var s := run[i];
    assert OpOk(s, o) && CmdOk(s, Sched(o)) && CmdOk(s, Cmd.Stop(o));
  }

  /** A submission is completed inline exactly if the context is closed and fewer than 2^62 submissions were
      before it: the exchange that should close the count again never succeeds, so each adds one. */
  lemma RefusedIff(run: seq<State>, acts: seq<Action>, i: nat, c: Cmd)
    requires IsRun(run, acts) && i < |acts| && acts[i] == OfSub(c, DoFetch)
    ensures c in run[i + 1].subs && (run[i + 1].subs[c].Refuse? <==> Shut(run[i]) && run[i].refused < MAX_REFUSED)
  {
    RunInv(run, acts, i);
    assert Step(run, acts, i);
  }

  lemma RecloseFails(run: seq<State>, acts: seq<Action>, i: nat, c: Cmd)
    requires IsRun(run, acts) && i < |acts| && acts[i] == OfSub(c, DoReclose)
    ensures run[i + 1].inFlight == run[i].inFlight
  {
    RunInv(run, acts, i);
    assert Step(run, acts, i) && CmdOk(run[i], c);
  }

  predicate Frozen(s: State, s': State) {
    Shut(s') && s.refused <= s'.refused && (s.refused < MAX_REFUSED ==> s'.queue == s.queue)
  }

  lemma SubFreezes(s: State, c: Cmd, k: SubStep)
    requires CountOk(s) && SubEnabled(s, c, k) && Shut(s)
    ensures Frozen(s, SubApply(s, c, k))
  {
    assert s.subs[c].Push? ==> c in InTransit(s.subs);
  }

  lemma ShutStep(s: State, a: Action)
    requires CountOk(s) && Enabled(s, a) && Shut(s)
    ensures Frozen(s, Apply(s, a))
  {
    if a.OfSub? { SubFreezes(s, a.c, a.sub); }
  }

  /** Closing settles which commands those are: until 2^62 submissions have met the closed context the queue
      does not change. */
  lemma {:induction false} QueueFrozen(run: seq<State>, acts: seq<Action>, i: nat, j: nat)
    requires IsRun(run, acts) && i <= j < |run| && Shut(run[i])
    ensures Shut(run[j]) && run[i].refused <= run[j].refused
    ensures run[j].refused < MAX_REFUSED ==> run[j].queue == run[i].queue
    decreases j
  {
    if i < j {
      QueueFrozen(run, acts, i, j - 1);
      RunInv(run, acts, j - 1);
      assert Step(run, acts, j - 1);
      ShutStep(run[j - 1], acts[j - 1]);
    }
  }

  /** So if the queue is empty when the context closes, every operation that was ever started, or is started
      later, completes exactly once, up to that many refusals. */
  lemma ExactlyOnceAfterCleanClose(run: seq<State>, acts: seq<Action>, i: nat, j: nat, o: Oid)
    requires IsRun(run, acts) && i <= j < |run| && Shut(run[i]) && run[i].queue == []
    requires o in run[j].ops && !run[j].ops[o].start.Armed? && run[j].refused < MAX_REFUSED
    requires run[j].pc.Exited? && forall c | c in run[j].subs :: run[j].subs[c].Out?
    ensures run[j].ops[o].completions == 1
  {
    QueueFrozen(run, acts, i, j);
    CompletedIffNotLeftBehind(run, acts, j, o);
  }

  // An entry of the heap keeps its key until it is taken out, and then its command is done.
  predicate Kept(s: State, o: Oid, when: When) {
    && (o in s.heap ==> o in s.ops && s.ops[o].when == when)
    && (o in s.heap || Sched(o) in s.done)
  }

  lemma RunKeeps(s: State, k: RunStep, o: Oid, when: When)
    requires RunEnabled(s, k) && Kept(s, o, when) && CmdOk(s, Sched(o))
    ensures Kept(RunApply(s, k), o, when)
  {}

  lemma KeyStep(s: State, a: Action, o: Oid, when: When)
    requires Enabled(s, a) && Kept(s, o, when) && CmdOk(s, Sched(o))
    ensures Kept(Apply(s, a), o, when)
  {
    if a.OfRun? { RunKeeps(s, a.run, o, when); }
  }

  lemma {:induction false} KeyStays(run: seq<State>, acts: seq<Action>, i: nat, j: nat, o: Oid)
    requires IsRun(run, acts) && i <= j < |run| && o in run[i].heap && o in run[i].ops
    ensures Kept(run[j], o, run[i].ops[o].when)
    decreases j
  {
    if i < j {
      KeyStays(run, acts, i, j - 1, o);
      RunInv(run, acts, j - 1);
      assert Step(run, acts, j - 1) && CmdOk(run[j - 1], Sched(o));
      KeyStep(run[j - 1], acts[j - 1], o, run[i].ops[o].when);
    }
  }

  /** Two operations that are in the heap together leave it by the timer in the order of their keys: the
      later one does not fire while the earlier one is there. */
  lemma FireInOrder(run: seq<State>, acts: seq<Action>, i: nat, j: nat, a: Oid, b: Oid)
    requires IsRun(run, acts) && i <= j < |acts|
    requires a in run[i].heap && b in run[i].heap && a in run[i].ops && b in run[i].ops
    requires Less(run[i].ops[a].when, run[i].ops[b].when)
    requires acts[j].OfRun? && acts[j].run == FireFront(b)
    ensures a !in run[j].heap && Sched(a) in run[j].done
  {
    KeyStays(run, acts, i, j, a);
    KeyStays(run, acts, i, j, b);
    assert Step(run, acts, j);
  }

  // ---------------------------------------------------------------- in place

  datatype Task = Task(when: When, o: Oid)

  predicate Due(t: Task, now: nat) { t.when.time <= now }

  class Timer {
    var heap: set<Task>

    ghost predicate Valid()
      reads this
    {
      forall a, b | a in heap && b in heap && a != b :: a.when.counter != b.when.counter
    }

    constructor ()
      ensures Valid() && heap == {}
    {
      heap := {};
    }

    // `heap_.front()`
    method Front() returns (f: Task)
      requires Valid() && heap != {}
      ensures f in heap && forall t | t in heap && t != f :: Less(f.when, t.when)
    {
      f :| f in heap;
      var seen, rest := {f}, heap - {f};
      while rest != {}
        invariant seen + rest == heap && seen !! rest && f in seen
        invariant forall t | t in seen && t != f :: Less(f.when, t.when)
        decreases |rest|
      {
        var t :| t in rest;
        assert forall u | u in seen && u != f && Less(t.when, f.when) :: Less(t.when, u.when);
        if Less(t.when, f.when) { f := t; }
        seen, rest := seen + {t}, rest - {t};
      }
    }

    /** The firing loop of `run`: every task that is due, and no other, in the order of the keys. */
    method FireDue(now: nat) returns (fired: seq<Task>)
      requires Valid()
      modifies this
      ensures Valid() && heap == set t | t in old(heap) && !Due(t, now)
      ensures forall t :: t in fired <==> t in old(heap) && Due(t, now)
      ensures forall i, j | 0 <= i < j < |fired| :: Less(fired[i].when, fired[j].when)
    {
      fired := [];
      while heap != {}
        invariant Valid() && heap <= old(heap)
        invariant forall t :: t in old(heap) <==> t in heap || t in fired
        invariant forall t | t in fired :: t !in heap && Due(t, now) && forall u | u in heap :: Less(t.when, u.when)
        invariant forall i, j | 0 <= i < j < |fired| :: Less(fired[i].when, fired[j].when)
        decreases |heap|
      {
        var f := Front();
        if f.when.time > now {
          break;
        }
        assert forall i | 0 <= i < |fired| :: fired[i] in fired;
        heap := heap - {f};
        fired := fired + [f];
      }
    }
  }
}

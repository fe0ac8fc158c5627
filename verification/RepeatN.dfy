/**
 `repeat_n`: a child operation constructed, started and destroyed in place, again and again, over the
 trampoline scheduler.
 */
module RepeatN {
  import opened Options
  import Trampoline

  datatype Outcome = Val | Err(e: nat) | Stop

  datatype Result = Value | Error(e: nat) | ConnectThrew | Stopped

  // What the world does: how the child completes the `k`-th time it runs, and whether connecting it for
  // its `k`-th run throws.
  datatype World = World(outcome: nat -> Outcome, throws: nat -> bool)

  // The number of child starts and the completion, when `ran` runs are over and `count` are to follow.
  function Expected(w: World, ran: nat, count: nat): (nat, Result)
    requires count > 0
    decreases count
  {
    match w.outcome(ran)
    case Err(e) => (ran + 1, Error(e))
    case Stop => (ran + 1, Stopped)
    case Val =>
      if count == 1 then (ran + 1, Value)
      else if w.throws(ran + 1) then (ran + 1, ConnectThrew)
      else Expected(w, ran + 1, count - 1)
  }

  // All `count` runs from the `ran`-th on complete with a value, and connecting throws between no two of them.
  ghost predicate Succeeds(w: World, ran: nat, count: nat) {
    (forall k | ran <= k < ran + count :: w.outcome(k).Val?) && forall k | ran < k < ran + count :: !w.throws(k)
  }

  // What is forwarded when nothing follows a run and no value is sent.
  function Failure(o: Outcome): Result {
    match o case Err(e) => Error(e) case Stop => Stopped case Val => ConnectThrew
  }

  /** The child starts exactly `count` times before a value, and a value is sent iff every run succeeds and
      no reconnection throws; otherwise the first failure is forwarded, and the child is not started again. */
  lemma {:induction false} ExpectedMeans(w: World, ran: nat, count: nat)
    requires count > 0
    ensures var (starts, result) := Expected(w, ran, count);
      && ran < starts <= ran + count
      && (result == Value <==> Succeeds(w, ran, count))
      && (result == Value ==> starts == ran + count)
      && (forall k | ran <= k < starts - 1 :: w.outcome(k).Val?)
      && (forall k | ran < k < starts :: !w.throws(k))
      && (result != Value ==> result == Failure(w.outcome(starts - 1)))
      && (result == ConnectThrew ==> w.throws(starts))
    decreases count
  {
    if w.outcome(ran).Val? && count > 1 && !w.throws(ran + 1) {
      ExpectedMeans(w, ran + 1, count - 1);
    }
  }

  class State {
    var count: nat
    var started: bool
    var constructed: bool               // `__child_op_` holds an object
    ghost var constructs: nat
    ghost var destroys: nat
    var starts: nat
    var result: Option<Result>

    // Every child object is destroyed at most once, and there is never a second one.
    ghost predicate Valid()
      reads this
    {
      constructs == destroys + if constructed then 1 else 0
    }

    // The constructor; `threw` means that connecting the child threw, and then there is no state to destroy.
    constructor (count: nat, w: World)
      ensures Valid() && this.count == count && !started && result == None && starts == 0
      ensures constructed <==> !w.throws(0)
    {
      this.count := count;
      started, result, starts, destroys := false, None, 0, 0;
      constructed := !w.throws(0);
      constructs := if w.throws(0) then 0 else 1;
    }

    method Connect(throws: bool) returns (ok: bool)
      requires Valid() && !constructed
      modifies this`constructed, this`constructs
      ensures Valid() && constructed == ok == !throws
    {
      ok := !throws;
      if ok {
        constructed := true;
        constructs := constructs + 1;
      }
    }

    method DestroyChild()
      requires Valid() && constructed
      modifies this`constructed, this`destroys
      ensures Valid() && !constructed
    {
      constructed := false;
      destroys := destroys + 1;
    }

    method StartChild(w: World)
      requires Valid() && constructed && count > 0 && result == None
      modifies this
      ensures Valid() && !constructed && started == old(started)
      ensures (starts, result) == (Expected(w, old(starts), old(count)).0, Some(Expected(w, old(starts), old(count)).1))
      decreases count, 1
    {
      starts := starts + 1;
      Complete(w, starts - 1);
    }

    // `__complete`, called by the child when it has run for the `ran`-th time.
    method Complete(w: World, ran: nat)
      requires Valid() && constructed && count > 0 && result == None && starts == ran + 1
      modifies this
      ensures Valid() && !constructed && started == old(started)
      ensures (starts, result) == (Expected(w, ran, old(count)).0, Some(Expected(w, ran, old(count)).1))
      decreases count, 0
    {
      DestroyChild();
      match w.outcome(ran) {
        case Val =>
          count := count - 1;
          if count == 0 {
            result := Some(Value);
          } else {
            var ok := Connect(w.throws(ran + 1));
            if ok {
              StartChild(w);
            } else {
              result := Some(ConnectThrew);
            }
          }
        case Err(e) => result := Some(Error(e));
        case Stop => result := Some(Stopped);
      }
    }

    // `__start`
    method Start(w: World)
      requires Valid() && constructed && !started && result == None && starts == 0
      modifies this
      ensures Valid() && started == (old(count) != 0) && constructed == (old(count) == 0)
      ensures old(count) == 0 ==> starts == 0 && result == Some(Value)
      ensures old(count) > 0 ==> (starts, result) == (Expected(w, 0, old(count)).0, Some(Expected(w, 0, old(count)).1))
    {
      if count == 0 {
        result := Some(Value);
      } else {
        started := true;
        StartChild(w);
      }
    }

    // The destructor, of a state whose operation was never started or has completed.
    method Destroy()
      requires Valid() && (started <==> !constructed)
      modifies this`constructed, this`destroys
      ensures constructs == old(constructs) && destroys == constructs
    {
      if !started {
        DestroyChild();
      }
    }
  }

  /** A whole life: every child object that was constructed is destroyed exactly once, whether the operation
      is started or not, whatever the count, and whether connecting throws. */
  method Life(count: nat, start: bool, w: World) returns (result: Option<Result>, starts: nat, ghost leaked: int)
    ensures leaked == 0
    ensures !start || w.throws(0) ==> result == None && starts == 0
    ensures start && !w.throws(0) ==>
              if count == 0 then result == Some(Value) && starts == 0
              else (starts, result) == (Expected(w, 0, count).0, Some(Expected(w, 0, count).1))
  {
    var s := new State(count, w);
    if s.constructed {
      if start {
        s.Start(w);
      }
      s.Destroy();
    }
    result, starts := s.result, s.starts;
    leaked := s.constructs - s.destroys;
  }

  // ---------------------------------------------------------------- over the trampoline

  const DEFAULT_DEPTH: nat := 16

  // A start of the child is a schedule operation; its execution runs the child, whose completion ends in
  // the next start or in none. Operations are named by the runs before them.
  function Turns(w: World, ran: nat, count: nat): Trampoline.Op
    requires count > 0
    decreases count
  {
    var more := w.outcome(ran).Val? && count > 1 && !w.throws(ran + 1);
    Trampoline.Op(ran, DEFAULT_DEPTH, if more then [Turns(w, ran + 1, count - 1)] else [])
  }

  lemma {:induction false} TurnsLimit(w: World, ran: nat, count: nat)
    requires count > 0
    ensures Trampoline.LimitAtMost(Turns(w, ran, count), DEFAULT_DEPTH)
    decreases count
  {
    var next := Turns(w, ran, count).children;
    if next != [] {
      TurnsLimit(w, ran + 1, count - 1);
      assert next[1..] == [];
    }
  }

  // The numbers from `from` to `to`.
  function Range(from: nat, to: nat): multiset<nat>
    decreases to - from
  {
    if from < to then multiset{from} + Range(from + 1, to) else multiset{}
  }

  lemma {:induction false} TurnsIds(w: World, ran: nat, count: nat)
    requires count > 0
    ensures Trampoline.Ids(Turns(w, ran, count)) == Range(ran, Expected(w, ran, count).0)
    decreases count
  {
    var next := Turns(w, ran, count).children;
    ExpectedMeans(w, ran, count);
    if next != [] {
      TurnsIds(w, ran + 1, count - 1);
      assert next[1..] == [] && Trampoline.IdsAll(next) == Trampoline.Ids(next[0]);
    }
  }

  /** Whatever the children do and however large the count, the stack holds at most sixteen executions, and
      the turns that are executed, each once, are exactly the child's starts. */
  method RunOverTrampoline(w: World, count: nat) returns (ghost peak: nat, ghost executed: multiset<nat>, starts: nat)
    requires count > 0 && !w.throws(0)
    ensures peak <= DEFAULT_DEPTH && executed == Range(0, starts) && starts == Expected(w, 0, count).0
  {
    var t := new Trampoline.Thread();
    TurnsLimit(w, 0, count);
    TurnsIds(w, 0, count);
    t.Start(Turns(w, 0, count), DEFAULT_DEPTH);
    peak, executed := t.peak, t.Executed();
    var result: Option<Result>;
    ghost var leaked: int;
    result, starts, leaked := Life(count, true, w);
  }
}

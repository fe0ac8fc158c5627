/**
 The trampoline scheduler: operations that start further operations run nested up to a limit, and the rest
 are deferred to a list that the outermost `start` drains.
 */
module Trampoline {

  // An operation and the operations its receiver starts when it is executed, each with its own limit.
  datatype Op = Op(id: nat, limit: nat, children: seq<Op>)

  function Size(op: Op): (n: nat)
    ensures n > 0
  {
    1 + SizeAll(op.children)
  }

  function SizeAll(ops: seq<Op>): nat {
    if ops == [] then 0 else Size(ops[0]) + SizeAll(ops[1..])
  }

  // The operations of a tree, of a list of trees.
  function Ids(op: Op): multiset<nat> { multiset{op.id} + IdsAll(op.children) }

  function IdsAll(ops: seq<Op>): multiset<nat> {
    if ops == [] then multiset{} else Ids(ops[0]) + IdsAll(ops[1..])
  }

  predicate LimitAtMost(op: Op, limit: nat) { op.limit <= limit && AllLimitsAtMost(op.children, limit) }

  predicate AllLimitsAtMost(ops: seq<Op>, limit: nat) {
    ops != [] ==> LimitAtMost(ops[0], limit) && AllLimitsAtMost(ops[1..], limit)
  }

  function Bound(limit: nat): nat { if limit > 1 then limit else 1 }

  lemma Deferred(op: Op, ops: seq<Op>, limit: nat)
    ensures IdsAll([op] + ops) == Ids(op) + IdsAll(ops) && SizeAll([op] + ops) == Size(op) + SizeAll(ops)
    ensures LimitAtMost(op, limit) && AllLimitsAtMost(ops, limit) ==> AllLimitsAtMost([op] + ops, limit)
  {
    assert ([op] + ops)[1..] == ops;
  }

  // `__trampoline_state` of one thread. `nest` counts the executions on the call stack, `peak` is the most
  // there have been, `order` the operations in the order in which their executions began.
  class Thread {
    var current: bool                // `__current_ != nullptr`
    var recursionDepth: nat
    var head: seq<Op>                // the list at `__head_`, first to last
    ghost var nest: nat
    ghost var peak: nat
    ghost var order: seq<nat>

    constructor ()
      ensures !current && head == [] && nest == 0 && peak == 0 && order == []
    {
      current, recursionDepth, head := false, 0, [];
      nest, peak, order := 0, 0, [];
    }

    ghost function Executed(): multiset<nat>
      reads this
    {
      multiset(order)
    }

    ghost predicate Valid(limit: nat)
      reads this
    {
      && nest <= recursionDepth <= Bound(limit)
      && peak <= Bound(limit)
      && AllLimitsAtMost(head, limit)
    }

    /** `start`. From outside any trampoline it returns only when the whole tree has been executed, each
        operation once, and the deferred list is empty; from inside it executes or defers. The stack
        never holds more executions than the limit. */
    method Start(op: Op, ghost limit: nat)
      requires LimitAtMost(op, limit)
      requires if current then Valid(limit) else head == [] && nest == 0 && peak <= Bound(limit)
      modifies this
      ensures current == old(current) && nest == old(nest) && peak <= Bound(limit)
      ensures Executed() + IdsAll(head) == old(Executed() + IdsAll(head)) + Ids(op)
      ensures !current ==> head == [] && Executed() == old(Executed()) + Ids(op)
      ensures current ==> Valid(limit) && recursionDepth >= old(recursionDepth)
      ensures SizeAll(head) <= old(SizeAll(head)) + Size(op)
      ensures if old(!current || recursionDepth < op.limit) then old(order) + [op.id] <= order
              else order == old(order) && head == [op] + old(head)
      decreases if current then 0 else 1, Size(op), 2
    {
      if !current {
        Outermost(op, limit);
      } else if recursionDepth < op.limit {
        recursionDepth := recursionDepth + 1;
        Execute(op, limit);
      } else {
        Defer(op, limit);
      }
    }

    // The last branch: the recursion limit is reached.
    method Defer(op: Op, ghost limit: nat)
      requires LimitAtMost(op, limit) && AllLimitsAtMost(head, limit)
      modifies this`head
      ensures head == [op] + old(head)
      ensures IdsAll(head) == Ids(op) + IdsAll(old(head)) && SizeAll(head) == Size(op) + SizeAll(old(head))
      ensures AllLimitsAtMost(head, limit)
    {
      Deferred(op, head, limit);
      head := [op] + head;
    }

    // The first branch: the state lives on this stack frame.
    method Outermost(op: Op, ghost limit: nat)
      requires LimitAtMost(op, limit) && !current && head == [] && nest == 0 && peak <= Bound(limit)
      modifies this
      ensures !current && nest == 0 && peak <= Bound(limit) && head == []
      ensures Executed() == old(Executed()) + Ids(op) && old(order) + [op.id] <= order
      decreases 1, Size(op), 1
    {
      current, recursionDepth := true, 1;
      Execute(op, limit);
      Drain(limit);
      current := false;
    }

    method Execute(op: Op, ghost limit: nat)
      requires current && LimitAtMost(op, limit) && Valid(limit) && nest < recursionDepth
      modifies this
      ensures current && nest == old(nest) && Valid(limit) && recursionDepth >= old(recursionDepth)
      ensures Executed() + IdsAll(head) == old(Executed() + IdsAll(head)) + Ids(op)
      ensures SizeAll(head) < old(SizeAll(head)) + Size(op) && old(order) + [op.id] <= order
      decreases 0, Size(op), 1
    {
      Enter(op.id);
      StartAll(op.children, limit);
      nest := nest - 1;
    }

    ghost method Enter(id: nat)
      modifies this`nest, this`peak, this`order
      ensures order == old(order) + [id]
      ensures nest == old(nest) + 1 && peak == if nest > old(peak) then nest else old(peak)
      ensures Executed() + IdsAll(head) == old(Executed() + IdsAll(head)) + multiset{id}
    {
      nest := nest + 1;
      peak := if nest > peak then nest else peak;
      order := order + [id];
    }

    // The receiver starts the operations one after another.
    method StartAll(ops: seq<Op>, ghost limit: nat)
      requires current && AllLimitsAtMost(ops, limit) && Valid(limit)
      modifies this
      ensures current && nest == old(nest) && Valid(limit) && recursionDepth >= old(recursionDepth)
      ensures Executed() + IdsAll(head) == old(Executed() + IdsAll(head)) + IdsAll(ops)
      ensures SizeAll(head) <= old(SizeAll(head)) + SizeAll(ops) && old(order) <= order
      decreases 0, SizeAll(ops), 3
    {
      if ops != [] {
        Start(ops[0], limit);
        StartAll(ops[1..], limit);
      }
    }

    method Drain(ghost limit: nat)
      requires current && nest == 0 && Valid(limit)
      modifies this
      ensures current && nest == 0 && head == [] && peak <= Bound(limit)
      ensures Executed() == old(Executed() + IdsAll(head))
      ensures if old(head == []) then order == old(order) else old(order + [head[0].id]) <= order
      decreases 1, SizeAll(head), 1
    {
      while head != []
        invariant current && nest == 0 && Valid(limit)
        invariant Executed() + IdsAll(head) == old(Executed() + IdsAll(head))
        invariant (order == old(order) && head == old(head)) || (old(head) != [] && old(order + [head[0].id]) <= order)
        decreases SizeAll(head)
      {
        NextDeferred(limit);
      }
    }

    // One turn of that loop.
    method NextDeferred(ghost limit: nat)
      requires current && nest == 0 && Valid(limit) && head != []
      modifies this
      ensures current && nest == 0 && Valid(limit)
      ensures Executed() + IdsAll(head) == old(Executed() + IdsAll(head))
      ensures old(order + [head[0].id]) <= order && SizeAll(head) < old(SizeAll(head))
      decreases 1, SizeAll(head), 0
    {
      var op := head[0];
      head := head[1..];
      recursionDepth := 1;
      Execute(op, limit);
    }
  }
}

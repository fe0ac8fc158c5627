/**
 What the state of a stop source says about the past: the calls each thread is in, the order of a callback's and of
 the notifier's steps, the order of the list, and that no interleaving of nested calls can deadlock.
 */
module StopHistory {
  import opened Options
  import opened Basics
  import opened StopToken

  lemma StepOf(run: seq<State>, acts: seq<Action>, i: nat)
    requires IsRun(run, acts) && i < |acts|
    ensures Enabled(run[i], acts[i]) && run[i + 1] == Apply(run[i], acts[i])
  {}

  // ---------------------------------------------------------------- the order of a callback's steps

  predicate OfCb(a: Action, c: Cb) { !a.OfStop? && a.c == c }

  ghost predicate Consecutive(acts: seq<Action>, i: nat, j: nat, c: Cb) {
    i < j < |acts| && OfCb(acts[i], c) && OfCb(acts[j], c) && forall k | i < k < j :: !OfCb(acts[k], c)
  }

  // Constructor and destructor as they are written: `next` may come after `a`, taken in state `s`.
  predicate Follows(s: State, a: Action, next: Action) {
    match a
    case OfCtor(t, c, Construct) => next == OfCtor(t, c, AddTry)
    case OfCtor(t, c, AddTry) => next == OfCtor(t, c, if s.word.stop then InlineEnd else Link)
    case OfCtor(t, c, Link) => next == OfCtor(t, c, LinkUnlock)
    case OfCtor(_, c, _) => next.OfDtor? && next.c == c && next.dtor.Destroy?
    case OfDtor(t, c, Destroy) => c in s.cbs && s.cbs[c].attached && next == OfDtor(t, c, RemTry)
    case OfDtor(t, c, RemTry) => next == OfDtor(t, c, Unlink)
    case OfDtor(t, c, Unlink) => next == OfDtor(t, c, if c in s.list then OutUnlock else RanUnlock)
    case OfDtor(t, c, RanUnlock) => next == OfDtor(t, c, if s.notifying == Some(t) then SelfRemove else WaitOver)
    case _ => false
  }

  // Nobody else moves a constructor or a destructor on.
  predicate Kept(s: State, s': State, c: Cb)
    requires c in s.cbs
  {
    && c in s'.cbs && s'.cbs[c].pc == s.cbs[c].pc && s'.cbs[c].owner == s.cbs[c].owner
    && s'.cbs[c].attached == s.cbs[c].attached
  }

  lemma CtorLeavesCb(s: State, t: Tid, d: Cb, k: CtorStep, c: Cb)
    requires CtorEnabled(s, t, d, k) && d != c && c in s.cbs
    ensures Kept(s, CtorApply(s, t, d, k), c)
  {}

  lemma DtorLeavesCb(s: State, t: Tid, d: Cb, k: DtorStep, c: Cb)
    requires DtorEnabled(s, t, d, k) && d != c && c in s.cbs
    ensures Kept(s, DtorApply(s, t, d, k), c)
  {}

  lemma StopLeavesCb(s: State, t: Tid, k: StopStep, c: Cb)
    requires StopEnabled(s, t, k) && c in s.cbs
    ensures Kept(s, StopApply(s, t, k), c)
  {}

  lemma OthersLeaveCb(s: State, a: Action, c: Cb)
    requires Enabled(s, a) && !OfCb(a, c) && c in s.cbs
    ensures Kept(s, Apply(s, a), c)
  {
    match a
    case OfCtor(t, d, k) => CtorLeavesCb(s, t, d, k, c);
    case OfDtor(t, d, k) => DtorLeavesCb(s, t, d, k, c);
    case OfStop(t, k) => StopLeavesCb(s, t, k, c);
  }

  lemma {:induction false} CbStays(run: seq<State>, acts: seq<Action>, i: nat, j: nat, c: Cb)
    requires IsRun(run, acts) && i <= j < |run| && c in run[i].cbs && forall k | i <= k < j :: !OfCb(acts[k], c)
    ensures Kept(run[i], run[j], c)
    decreases j - i
  {
    if i < j {
      CbStays(run, acts, i, j - 1, c);
      StepOf(run, acts, j - 1);
      OthersLeaveCb(run[j - 1], acts[j - 1], c);
    }
  }

  lemma CbExists(s: State, a: Action)
    requires Enabled(s, a) && !a.OfStop?
    ensures a.c in Apply(s, a).cbs
  {
    Makes(s, a);
  }

  lemma AfterCtor(s: State, t: Tid, c: Cb, k: CtorStep, s': State, next: Action)
    requires CtorEnabled(s, t, c, k) && c in s'.cbs && OfCb(next, c) && Enabled(s', next)
    requires var b := CtorApply(s, t, c, k).cbs[c]; s'.cbs[c].pc == b.pc && s'.cbs[c].owner == b.owner
    ensures Follows(s, OfCtor(t, c, k), next)
  {}

  lemma AfterCheck(s: State, t: Tid, c: Cb, k: DtorStep, s': State, next: Action)
    requires k.Unlink? || k.RanUnlock?
    requires DtorEnabled(s, t, c, k) && c in s'.cbs && OfCb(next, c) && Enabled(s', next)
    requires var b := DtorApply(s, t, c, k).cbs[c]; s'.cbs[c].pc == b.pc && s'.cbs[c].owner == b.owner
    requires (c in s.list <==> s.cbs[c].linked) && CallbackOk(s, c)
    ensures Follows(s, OfDtor(t, c, k), next)
  {}

  lemma AfterDtor(s: State, t: Tid, c: Cb, k: DtorStep, s': State, next: Action)
    requires DtorEnabled(s, t, c, k) && c in s'.cbs && OfCb(next, c) && Enabled(s', next)
    requires var b := DtorApply(s, t, c, k).cbs[c]; s'.cbs[c].pc == b.pc && s'.cbs[c].owner == b.owner
    requires (c in s.list <==> s.cbs[c].linked) && CallbackOk(s, c)
    ensures Follows(s, OfDtor(t, c, k), next)
  {
    if k.Unlink? || k.RanUnlock? { AfterCheck(s, t, c, k, s', next); }
  }

  /** A callback object is constructed and destroyed by the steps of the code, each on one thread: it is linked
      unless stop had been requested, and then runs at once; its destruction takes it off the list if it is there,
      and otherwise waits for its body, but for the notifying thread. */
  lemma ProgramOrder(run: seq<State>, acts: seq<Action>, i: nat, j: nat, c: Cb)
    requires IsRun(run, acts) && Consecutive(acts, i, j, c)
    ensures Follows(run[i], acts[i], acts[j])
  {
    StepOf(run, acts, i);
    StepOf(run, acts, j);
    RunInv(run, acts, i);
    CbExists(run[i], acts[i]);
    CbStays(run, acts, i + 1, j, c);
    match acts[i]
    case OfCtor(t, _, k) => AfterCtor(run[i], t, c, k, run[j], acts[j]);
    case OfDtor(t, _, k) => AfterDtor(run[i], t, c, k, run[j], acts[j]);
    case OfStop(_, _) =>
  }

  lemma CtorMakes(s: State, t: Tid, d: Cb, k: CtorStep)
    requires CtorEnabled(s, t, d, k)
    ensures CtorApply(s, t, d, k).cbs.Keys == s.cbs.Keys + {d} && (d !in s.cbs ==> k.Construct?)
  {}

  lemma StopMakesNone(s: State, t: Tid, k: StopStep)
    requires StopEnabled(s, t, k)
    ensures StopApply(s, t, k).cbs.Keys == s.cbs.Keys
  {}

  // Callback objects come into being by their construction only.
  lemma Makes(s: State, a: Action)
    requires Enabled(s, a)
    ensures Apply(s, a).cbs.Keys == s.cbs.Keys + if a.OfCtor? then {a.c} else {}
    ensures !a.OfStop? && a.c !in s.cbs ==> a.OfCtor? && a.ctor.Construct?
  {
    match a
    case OfCtor(t, d, k) => CtorMakes(s, t, d, k);
    case OfDtor(t, d, k) => DtorKeepsDomain(s, t, d, k);
    case OfStop(t, k) => StopMakesNone(s, t, k);
  }

  lemma NotBorn(s: State, a: Action, c: Cb)
    requires Enabled(s, a) && c !in s.cbs
    ensures c !in Apply(s, a).cbs <==> !OfCb(a, c)
    ensures OfCb(a, c) ==> a.OfCtor? && a.ctor.Construct?
  {
    Makes(s, a);
  }

  /** And its first step is its construction. */
  lemma {:induction false} FirstStep(run: seq<State>, acts: seq<Action>, j: nat, c: Cb)
    requires IsRun(run, acts) && j < |run| && forall k | 0 <= k < j :: !OfCb(acts[k], c)
    ensures c !in run[j].cbs
    ensures j < |acts| && OfCb(acts[j], c) ==> acts[j].OfCtor? && acts[j].ctor.Construct?
  {
    if j > 0 {
      FirstStep(run, acts, j - 1, c);
      StepOf(run, acts, j - 1);
      NotBorn(run[j - 1], acts[j - 1], c);
    }
    if j < |acts| {
      StepOf(run, acts, j);
      NotBorn(run[j], acts[j], c);
    }
  }

  // ---------------------------------------------------------------- the order of the notifier's steps

  // A step of the winning `request_stop`; the other calls only find the stop bit set.
  predicate OfWinner(s: State, a: Action) { a.OfStop? && (a.stop.StopTry? ==> !s.word.stop) }

  predicate AfterStep(s: State, k: StopStep, next: StopStep)
  {
    match k
    case StopTry => next.TakeOver?
    case TakeOver => next.Pop? || next.Finish?
    case Pop => next.Release?
    case Finish => false
    case Release => next.Run?
    case Run => next.BodyEnd?
    case BodyEnd => next.ReadFlag?
    case ReadFlag =>
      HasCb(s.note) && s.note.c in s.cbs && if s.cbs[s.note.c].pc.Dead? then next.LockAgain? else next.Disarm?
    case Disarm => next.SetCompleted?
    case SetCompleted => next.LockAgain?
    case LockAgain => next.Pop? || next.Finish?
  }

  // The callback the notifier is busy with is the one it took last.
  predicate SameCb(s: State, k: StopStep, s': State) {
    HasCb(s'.note) ==> if k.Pop? then s.list != [] && s'.note.c == s.list[0] else HasCb(s.note) && s'.note.c == s.note.c
  }

  lemma OthersLeaveNote(s: State, a: Action)
    requires Enabled(s, a) && !OfWinner(s, a)
    ensures Apply(s, a).note == s.note && Apply(s, a).winner == s.winner
  {}

  lemma {:induction false} NoteStays(run: seq<State>, acts: seq<Action>, i: nat, j: nat)
    requires IsRun(run, acts) && i <= j < |run| && forall k | i <= k < j :: !OfWinner(run[k], acts[k])
    ensures run[j].note == run[i].note && run[j].winner == run[i].winner
    decreases j - i
  {
    if i < j {
      NoteStays(run, acts, i, j - 1);
      StepOf(run, acts, j - 1);
      OthersLeaveNote(run[j - 1], acts[j - 1]);
    }
  }

  lemma AfterStop(s: State, t: Tid, k: StopStep, s': State, u: Tid, next: StopStep)
    requires StopEnabled(s, t, k) && StopEnabled(s', u, next) && (k.StopTry? ==> !s.word.stop)
    requires s'.note == StopApply(s, t, k).note && s'.winner == StopApply(s, t, k).winner
    requires NoteOk(s) && (next.StopTry? ==> s'.note.Idle?)
    ensures AfterStep(s, k, next) && SameCb(s, k, s') && u == t
  {}

  /** The winning call goes through the notify loop as it is written, on its own thread: it marks a callback as
      completed exactly if the body did not destroy it. */
  lemma NotifierOrder(run: seq<State>, acts: seq<Action>, i: nat, j: nat)
    requires IsRun(run, acts) && i < j < |acts| && OfWinner(run[i], acts[i]) && OfWinner(run[j], acts[j])
    requires forall k | i < k < j :: !OfWinner(run[k], acts[k])
    ensures AfterStep(run[i], acts[i].stop, acts[j].stop) && acts[j].t == acts[i].t
    ensures SameCb(run[i], acts[i].stop, run[j])
  {
    StepOf(run, acts, i);
    StepOf(run, acts, j);
    RunInv(run, acts, i);
    RunInv(run, acts, j);
    NoteStays(run, acts, i + 1, j);
    AfterStop(run[i], acts[i].t, acts[i].stop, run[j], acts[j].t, acts[j].stop);
  }

  predicate IsTry(a: Action) { a.OfStop? && a.stop.StopTry? }

  predicate IsFinish(a: Action) { a.OfStop? && a.stop.Finish? }

  lemma StopBitByCtor(s: State, t: Tid, c: Cb, k: CtorStep)
    requires CtorEnabled(s, t, c, k) && (c in s.cbs ==> HoldOk(s, c))
    ensures CtorApply(s, t, c, k).word.stop == s.word.stop && CtorApply(s, t, c, k).note == s.note
  {}

  lemma StopBitByDtor(s: State, t: Tid, c: Cb, k: DtorStep)
    requires DtorEnabled(s, t, c, k) && HoldOk(s, c)
    ensures DtorApply(s, t, c, k).word.stop == s.word.stop && DtorApply(s, t, c, k).note == s.note
  {}

  lemma StopBitByStop(s: State, t: Tid, k: StopStep)
    requires StopEnabled(s, t, k) && (s.word.stop <==> !s.note.Idle?)
    ensures StopApply(s, t, k).word.stop <==> s.word.stop || k.StopTry?
    ensures StopApply(s, t, k).note.Done? <==> s.note.Done? || k.Finish?
  {}

  lemma StopBitStep(s: State, a: Action)
    requires Inv(s) && Enabled(s, a)
    ensures Apply(s, a).word.stop <==> s.word.stop || IsTry(a)
    ensures Apply(s, a).note.Done? <==> s.note.Done? || IsFinish(a)
  {
    match a
    case OfCtor(t, c, k) => StopBitByCtor(s, t, c, k);
    case OfDtor(t, c, k) => StopBitByDtor(s, t, c, k);
    case OfStop(t, k) => StopBitByStop(s, t, k);
  }

  lemma StopBitAt(run: seq<State>, acts: seq<Action>, i: nat)
    requires IsRun(run, acts) && i < |acts|
    ensures run[i + 1].word.stop <==> run[i].word.stop || IsTry(acts[i])
    ensures run[i + 1].note.Done? <==> run[i].note.Done? || IsFinish(acts[i])
  {
    RunInv(run, acts, i);
    StepOf(run, acts, i);
    StopBitStep(run[i], acts[i]);
  }

  /** The stop bit is set exactly from the first call of `request_stop` on. */
  lemma {:induction false} StopMeans(run: seq<State>, acts: seq<Action>, i: nat)
    requires IsRun(run, acts) && i < |run|
    ensures run[i].word.stop <==> exists k | 0 <= k < i :: IsTry(acts[k])
    ensures run[i].note.Done? <==> exists k | 0 <= k < i :: IsFinish(acts[k])
  {
    if i > 0 {
      StopMeans(run, acts, i - 1);
      StopBitAt(run, acts, i - 1);
    }
  }

  // The action starts the body of `c`.
  predicate Starts(s: State, a: Action, c: Cb) {
    match a
    case OfCtor(_, d, k) => k.AddTry? && s.word.stop && d == c
    case OfDtor(_, _, _) => false
    case OfStop(_, k) => k.Run? && s.note == Arm(c)
  }

  function StartsOf(run: seq<State>, acts: seq<Action>, i: nat, c: Cb): nat
    requires i <= |acts| < |run|
  {
    if i == 0 then 0 else StartsOf(run, acts, i - 1, c) + if Starts(run[i - 1], acts[i - 1], c) then 1 else 0
  }

  lemma RunsByCtor(s: State, t: Tid, d: Cb, k: CtorStep, c: Cb)
    requires CtorEnabled(s, t, d, k) && c in CtorApply(s, t, d, k).cbs
    ensures CtorApply(s, t, d, k).cbs[c].runs ==
            (if c in s.cbs then s.cbs[c].runs else 0) + if Starts(s, OfCtor(t, d, k), c) then 1 else 0
  {}

  lemma RunsByDtor(s: State, t: Tid, d: Cb, k: DtorStep, c: Cb)
    requires DtorEnabled(s, t, d, k) && c in DtorApply(s, t, d, k).cbs
    ensures c in s.cbs && DtorApply(s, t, d, k).cbs[c].runs == s.cbs[c].runs
  {}

  lemma RunsByStop(s: State, t: Tid, k: StopStep, c: Cb)
    requires StopEnabled(s, t, k) && c in StopApply(s, t, k).cbs
    ensures c in s.cbs
    ensures StopApply(s, t, k).cbs[c].runs == s.cbs[c].runs + if Starts(s, OfStop(t, k), c) then 1 else 0
  {}

  lemma RunsStep(s: State, a: Action, c: Cb)
    requires Enabled(s, a) && c in Apply(s, a).cbs
    ensures Apply(s, a).cbs[c].runs == (if c in s.cbs then s.cbs[c].runs else 0) + if Starts(s, a, c) then 1 else 0
  {
    match a
    case OfCtor(t, d, k) => RunsByCtor(s, t, d, k, c);
    case OfDtor(t, d, k) => RunsByDtor(s, t, d, k, c);
    case OfStop(t, k) => RunsByStop(s, t, k, c);
  }

  /** `runs`, of which `CallbackRunsOnce` speaks, counts the starts of the body: by the notifier, and inside a
      constructor that found stop requested. */
  lemma {:induction false} RunsMeans(run: seq<State>, acts: seq<Action>, i: nat, c: Cb)
    requires IsRun(run, acts) && i < |run|
    ensures StartsOf(run, acts, i, c) == if c in run[i].cbs then run[i].cbs[c].runs else 0
  {
    if i > 0 {
      RunsMeans(run, acts, i - 1, c);
      StepOf(run, acts, i - 1);
      if c in run[i].cbs {
        RunsStep(run[i - 1], acts[i - 1], c);
      } else {
        NeverStarted(run[i - 1], acts[i - 1], c);
      }
    }
  }

  lemma NeverStarted(s: State, a: Action, c: Cb)
    requires Enabled(s, a) && c !in Apply(s, a).cbs
    ensures c !in s.cbs && !Starts(s, a, c)
  {
    Makes(s, a);
  }

  // ---------------------------------------------------------------- the order of the list

  predicate Links(a: Action, c: Cb) { a.OfCtor? && a.c == c && a.ctor.Link? }

  // The last of the first `i` actions to link `c`, counted from 1.
  function LinkedAt(acts: seq<Action>, i: nat, c: Cb): (r: nat)
    requires i <= |acts|
    ensures r <= i
  {
    if i == 0 then 0 else if Links(acts[i - 1], c) then i else LinkedAt(acts, i - 1, c)
  }

  ghost predicate Newest(acts: seq<Action>, i: nat, l: seq<Cb>)
    requires i <= |acts|
  {
    forall x, y | 0 <= x < y < |l| :: LinkedAt(acts, i, l[x]) > LinkedAt(acts, i, l[y])
  }

  lemma {:induction false} WithoutKeeps(acts: seq<Action>, i: nat, l: seq<Cb>, c: Cb)
    requires i <= |acts| && Newest(acts, i, l)
    ensures Newest(acts, i, Without(l, c)) && forall x | x in Without(l, c) :: x in l
  {
    if l != [] && l[0] != c {
      assert Newest(acts, i, l[1..]) by {
        forall x, y | 0 <= x < y < |l[1..]| ensures LinkedAt(acts, i, l[1..][x]) > LinkedAt(acts, i, l[1..][y]) {
          assert l[1..][x] == l[x + 1] && l[1..][y] == l[y + 1];
        }
      }
      WithoutKeeps(acts, i, l[1..], c);
      var r := Without(l[1..], c);
      forall y | 0 <= y < |r| ensures LinkedAt(acts, i, l[0]) > LinkedAt(acts, i, r[y]) {
        assert r[y] in l[1..];
        var z :| 0 <= z < |l[1..]| && l[1..][z] == r[y];
        assert l[z + 1] == r[y];
      }
    }
  }

  lemma ListStep(s: State, a: Action)
    requires Enabled(s, a)
    ensures Apply(s, a).list ==
            match a
            case OfCtor(_, c, k) => (if k.Link? then [c] + s.list else s.list)
            case OfDtor(_, c, k) => (if k.Unlink? && s.cbs[c].linked then Without(s.list, c) else s.list)
            case OfStop(_, k) => if k.Pop? then s.list[1..] else s.list
  {}

  lemma LinkFirst(acts: seq<Action>, i: nat, l: seq<Cb>, c: Cb)
    requires i < |acts| && Newest(acts, i, l) && Links(acts[i], c) && c !in l
    ensures Newest(acts, i + 1, [c] + l)
  {
    var m := [c] + l;
    forall x, y | 0 <= x < y < |m| ensures LinkedAt(acts, i + 1, m[x]) > LinkedAt(acts, i + 1, m[y]) {
      assert m[y] == l[y - 1] && m[y] in l && (x > 0 ==> m[x] == l[x - 1] && m[x] in l);
    }
  }

  lemma OrderStep(acts: seq<Action>, i: nat, s: State)
    requires i < |acts| && Enabled(s, acts[i]) && ListOk(s) && Newest(acts, i, s.list)
    requires acts[i].OfCtor? && acts[i].ctor.Link? ==> acts[i].c !in s.list
    ensures Newest(acts, i + 1, Apply(s, acts[i]).list)
  {
    var a := acts[i];
    ListStep(s, a);
    if a.OfCtor? && a.ctor.Link? {
      LinkFirst(acts, i, s.list, a.c);
    } else if a.OfDtor? {
      WithoutKeeps(acts, i, s.list, a.c);
    }
  }

  lemma NotListed(s: State, a: Action)
    requires Inv(s) && Enabled(s, a) && a.OfCtor? && a.ctor.Link?
    ensures a.c !in s.list
  {
    assert CallbackOk(s, a.c);
  }

  /** The list holds the newest callback first, so they are notified in the reverse of the order in which they
      were registered. */
  lemma {:induction false} NewestFirst(run: seq<State>, acts: seq<Action>, i: nat)
    requires IsRun(run, acts) && i < |run|
    ensures Newest(acts, i, run[i].list)
  {
    if i > 0 {
      NewestFirst(run, acts, i - 1);
      OrderAt(run, acts, i - 1);
    }
  }

  lemma OrderAt(run: seq<State>, acts: seq<Action>, i: nat)
    requires IsRun(run, acts) && i < |acts| && Newest(acts, i, run[i].list)
    ensures Newest(acts, i + 1, run[i + 1].list)
  {
    RunInv(run, acts, i);
    StepOf(run, acts, i);
    if acts[i].OfCtor? && acts[i].ctor.Link? { NotListed(run[i], acts[i]); }
    OrderStep(acts, i, run[i]);
  }

  // ---------------------------------------------------------------- the calls a thread is in

  function CallsOf(run: seq<State>, acts: seq<Action>, i: nat, t: Tid): seq<Call>
    requires i <= |acts| < |run|
  {
    if i == 0 then [] else
      var s, l := run[i - 1], CallsOf(run, acts, i - 1, t);
      if acts[i - 1].t != t then l else Nested(s, acts[i - 1], l)
  }

  // A call begins inside the calls of its thread, and the innermost one returns.
  function Nested(s: State, a: Action, l: seq<Call>): seq<Call> {
    match a
    case OfCtor(_, c, Construct) => l + [Ctor(c)]
    case OfCtor(_, _, LinkUnlock) => Returned(l)
    case OfCtor(_, _, InlineEnd) => Returned(l)
    case OfDtor(_, c, Destroy) => if c in s.cbs && s.cbs[c].attached then l + [Dtor(c)] else l
    case OfDtor(_, _, OutUnlock) => Returned(l)
    case OfDtor(_, _, SelfRemove) => Returned(l)
    case OfDtor(_, _, WaitOver) => Returned(l)
    case OfStop(_, StopTry) => if s.word.stop then l else l + [Stopper]
    case OfStop(_, Finish) => Returned(l)
    case _ => l
  }

  function Returned(l: seq<Call>): seq<Call> { if l == [] then [] else l[..|l| - 1] }

  lemma StackByCtor(s: State, u: Tid, c: Cb, k: CtorStep, t: Tid)
    requires CtorEnabled(s, u, c, k)
    ensures Stack(CtorApply(s, u, c, k), t) == if u != t then Stack(s, t) else Nested(s, OfCtor(u, c, k), Stack(s, t))
  {}

  lemma StackByDtor(s: State, u: Tid, c: Cb, k: DtorStep, t: Tid)
    requires DtorEnabled(s, u, c, k)
    ensures Stack(DtorApply(s, u, c, k), t) == if u != t then Stack(s, t) else Nested(s, OfDtor(u, c, k), Stack(s, t))
  {}

  lemma StackByStop(s: State, u: Tid, k: StopStep, t: Tid)
    requires StopEnabled(s, u, k)
    ensures Stack(StopApply(s, u, k), t) == if u != t then Stack(s, t) else Nested(s, OfStop(u, k), Stack(s, t))
  {}

  lemma StackStepOf(s: State, a: Action, t: Tid)
    requires Enabled(s, a)
    ensures Stack(Apply(s, a), t) == if a.t != t then Stack(s, t) else Nested(s, a, Stack(s, t))
  {
    match a
    case OfCtor(u, c, k) => StackByCtor(s, u, c, k, t);
    case OfDtor(u, c, k) => StackByDtor(s, u, c, k, t);
    case OfStop(u, k) => StackByStop(s, u, k, t);
  }

  /** The calls that `t` is in are those it has begun and not returned from, the innermost last. */
  lemma {:induction false} StackMeans(run: seq<State>, acts: seq<Action>, i: nat, t: Tid)
    requires IsRun(run, acts) && i < |run|
    ensures Stack(run[i], t) == CallsOf(run, acts, i, t)
  {
    if i > 0 {
      StackMeans(run, acts, i - 1, t);
      StepOf(run, acts, i - 1);
      StackStepOf(run[i - 1], acts[i - 1], t);
    }
  }

  // ---------------------------------------------------------------- no deadlock

  predicate InCtor(p: Pc) { p.AddLock? || p.AddLink? || p.AddUnlock? || p.Inline? }

  predicate InDtor(p: Pc) {
    p.RemLock? || p.RemTest? || p.RemUnlockOut? || p.RemUnlockRan? || p.RemSelf? || p.RemWait?
  }

  predicate InStop(n: Note) { !n.Idle? && !n.Done? }

  // A call that is under way, and where: only code of the caller's own, a body, has other calls inside it.
  predicate FrameOk(s: State, t: Tid, a: Call, top: bool) {
    match a
    case Ctor(c) => c in s.cbs && s.cbs[c].owner == t && InCtor(s.cbs[c].pc) && (top || s.cbs[c].pc.Inline?)
    case Dtor(c) => c in s.cbs && s.cbs[c].owner == t && InDtor(s.cbs[c].pc) && top
    case Stopper => s.winner == t && InStop(s.note) && (top || s.note.Body?)
  }

  ghost predicate NestOk(s: State, t: Tid) {
    && Distinct(Stack(s, t))
    && forall k | 0 <= k < |Stack(s, t)| :: FrameOk(s, t, Stack(s, t)[k], k == |Stack(s, t)| - 1)
  }

  predicate Listed(s: State, c: Cb)
    requires c in s.cbs
  {
    && (InCtor(s.cbs[c].pc) ==> Ctor(c) in Stack(s, s.cbs[c].owner))
    && (InDtor(s.cbs[c].pc) ==> Dtor(c) in Stack(s, s.cbs[c].owner))
  }

  ghost predicate CallsOk(s: State) {
    && (forall t :: NestOk(s, t))
    && (forall c | c in s.cbs :: Listed(s, c))
    && (InStop(s.note) ==> Stopper in Stack(s, s.winner))
  }

  // A new call, and the last step of one.
  predicate Begins(a: Action) {
    match a
    case OfCtor(_, _, k) => k.Construct?
    case OfDtor(_, _, k) => k.Destroy?
    case OfStop(_, k) => k.StopTry?
  }

  predicate Ends(a: Action) {
    match a
    case OfCtor(_, _, k) => k.LinkUnlock? || k.InlineEnd?
    case OfDtor(_, _, k) => k.OutUnlock? || k.SelfRemove? || k.WaitOver?
    case OfStop(_, k) => k.Finish?
  }

  lemma FrameKept(s: State, a: Action, u: Tid, x: Call, top: bool)
    requires Enabled(s, a) && FrameOk(s, u, x, top) && (a.t == u ==> !On(s, u, x)) && (s.note.Idle? <==> !s.word.stop)
    ensures FrameOk(Apply(s, a), u, x, top)
  {
    match x
    case Ctor(c) => if !OfCb(a, c) { OthersLeaveCb(s, a, c); }
    case Dtor(c) => if !OfCb(a, c) { OthersLeaveCb(s, a, c); }
    case Stopper => if !OfWinner(s, a) { OthersLeaveNote(s, a); }
  }

  lemma TopBelow(s: State, a: Action, x: Call)
    requires Enabled(s, a) && Begins(a) && On(s, a.t, x) && FrameOk(s, a.t, x, true)
    requires s.note.Idle? <==> !s.word.stop
    ensures FrameOk(Apply(s, a), a.t, x, false)
  {}

  lemma TopOfCtor(s: State, t: Tid, c: Cb, k: CtorStep)
    requires CtorEnabled(s, t, c, k) && !k.Construct? && !Ends(OfCtor(t, c, k)) && FrameOk(s, t, Ctor(c), true)
    ensures FrameOk(CtorApply(s, t, c, k), t, Ctor(c), true)
  {}

  lemma TopOfDtor(s: State, t: Tid, c: Cb, k: DtorStep)
    requires DtorEnabled(s, t, c, k) && !k.Destroy? && !Ends(OfDtor(t, c, k)) && FrameOk(s, t, Dtor(c), true)
    ensures FrameOk(DtorApply(s, t, c, k), t, Dtor(c), true)
  {}

  lemma TopOfStop(s: State, t: Tid, k: StopStep)
    requires StopEnabled(s, t, k) && !k.StopTry? && !k.Finish? && FrameOk(s, t, Stopper, true)
    ensures FrameOk(StopApply(s, t, k), t, Stopper, true)
  {}

  function CallOf(a: Action): Call {
    match a
    case OfCtor(_, c, _) => Ctor(c)
    case OfDtor(_, c, _) => Dtor(c)
    case OfStop(_, _) => Stopper
  }

  lemma TopStays(s: State, a: Action)
    requires Enabled(s, a) && !Begins(a) && !Ends(a) && FrameOk(s, a.t, CallOf(a), true)
    ensures FrameOk(Apply(s, a), a.t, CallOf(a), true)
  {
    match a
    case OfCtor(t, c, k) => TopOfCtor(s, t, c, k);
    case OfDtor(t, c, k) => TopOfDtor(s, t, c, k);
    case OfStop(t, k) => TopOfStop(s, t, k);
  }

  lemma NewTop(s: State, a: Action)
    requires Enabled(s, a) && Begins(a) && NestOk(s, a.t) && (s.note.Idle? <==> !s.word.stop)
    ensures Stack(Apply(s, a), a.t) == Stack(s, a.t) ||
            (&& CallOf(a) !in Stack(s, a.t) && Stack(Apply(s, a), a.t) == Stack(s, a.t) + [CallOf(a)]
             && FrameOk(Apply(s, a), a.t, CallOf(a), true))
  {
    forall k | 0 <= k < |Stack(s, a.t)| && Stack(Apply(s, a), a.t) != Stack(s, a.t)
      ensures Stack(s, a.t)[k] != CallOf(a)
    {
      assert FrameOk(s, a.t, Stack(s, a.t)[k], k == |Stack(s, a.t)| - 1);
    }
  }

  // What an action does to the calls of its own thread.
  lemma OwnStack(s: State, a: Action)
    requires Enabled(s, a) && !Begins(a)
    ensures On(s, a.t, CallOf(a))
    ensures Stack(Apply(s, a), a.t) ==
            if Ends(a) then Stack(s, a.t)[..|Stack(s, a.t)| - 1] else Stack(s, a.t)
  {}

  lemma NestKept(s: State, a: Action, u: Tid)
    requires LockOk(s) && Enabled(s, a) && NestOk(s, u)
    ensures NestOk(Apply(s, a), u)
  {
    var l, l' := Stack(s, u), Stack(Apply(s, a), u);
    StackStepOf(s, a, u);
    if a.t == u { if Begins(a) { NewTop(s, a); } else { OwnStack(s, a); } }
    forall k | 0 <= k < |l'| ensures FrameOk(Apply(s, a), u, l'[k], k == |l'| - 1) {
      if k < |l| {
        assert l'[k] == l[k] && FrameOk(s, u, l[k], k == |l| - 1);
        if a.t != u || k != |l| - 1 {
          FrameKept(s, a, u, l[k], k == |l| - 1);
        } else if Begins(a) {
          TopBelow(s, a, l[k]);
        } else {
          TopStays(s, a);
        }
      }
    }
  }

  lemma MemberKept(s: State, a: Action, u: Tid, x: Call)
    requires Enabled(s, a) && NestOk(s, u) && x in Stack(s, u) && (Ends(a) && a.t == u ==> x != CallOf(a))
    requires s.note.Idle? <==> !s.word.stop
    ensures x in Stack(Apply(s, a), u)
  {
    StackStepOf(s, a, u);
    if a.t == u { if Begins(a) { NewTop(s, a); } else { OwnStack(s, a); } }
  }

  lemma ListedByOthers(s: State, a: Action, c: Cb)
    requires (s.note.Idle? <==> !s.word.stop) && Enabled(s, a) && !OfCb(a, c)
    requires c in s.cbs && Listed(s, c) && NestOk(s, s.cbs[c].owner)
    ensures c in Apply(s, a).cbs && Listed(Apply(s, a), c)
  {
    OthersLeaveCb(s, a, c);
    if InCtor(s.cbs[c].pc) { MemberKept(s, a, s.cbs[c].owner, Ctor(c)); }
    if InDtor(s.cbs[c].pc) { MemberKept(s, a, s.cbs[c].owner, Dtor(c)); }
  }

  lemma ListedByCtor(s: State, t: Tid, c: Cb, k: CtorStep)
    requires CtorEnabled(s, t, c, k)
    ensures Listed(CtorApply(s, t, c, k), c)
  {
    var s' := CtorApply(s, t, c, k);
    assert !Ends(OfCtor(t, c, k)) ==> On(s', t, Ctor(c));
  }

  lemma ListedByDtor(s: State, t: Tid, c: Cb, k: DtorStep)
    requires DtorEnabled(s, t, c, k)
    ensures Listed(DtorApply(s, t, c, k), c)
  {
    var s' := DtorApply(s, t, c, k);
    assert InDtor(s'.cbs[c].pc) ==> On(s', t, Dtor(c));
  }

  lemma ListedStep(s: State, a: Action, c: Cb)
    requires LockOk(s) && Enabled(s, a) && c in Apply(s, a).cbs
    requires c in s.cbs ==> Listed(s, c) && NestOk(s, s.cbs[c].owner)
    requires !OfCb(a, c) ==> c in s.cbs
    ensures Listed(Apply(s, a), c)
  {
    match a
    case OfCtor(t, d, k) => if d == c { ListedByCtor(s, t, d, k); } else { ListedByOthers(s, a, c); }
    case OfDtor(t, d, k) => if d == c { ListedByDtor(s, t, d, k); } else { ListedByOthers(s, a, c); }
    case OfStop(t, k) => ListedByOthers(s, a, c);
  }

  lemma StopperStep(s: State, a: Action)
    requires LockOk(s) && Enabled(s, a) && (InStop(s.note) ==> Stopper in Stack(s, s.winner)) && NestOk(s, s.winner)
    ensures InStop(Apply(s, a).note) ==> Stopper in Stack(Apply(s, a), Apply(s, a).winner)
  {
    if !OfWinner(s, a) {
      OthersLeaveNote(s, a);
      if InStop(s.note) { MemberKept(s, a, s.winner, Stopper); }
    } else if a.stop.StopTry? {
      assert On(Apply(s, a), a.t, Stopper);
    } else {
      OwnStack(s, a);
      assert Apply(s, a).winner == s.winner;
    }
  }

  lemma CallsStep(s: State, a: Action)
    requires Inv(s) && CallsOk(s) && Enabled(s, a)
    ensures CallsOk(Apply(s, a))
  {
    forall u ensures NestOk(Apply(s, a), u) { NestKept(s, a, u); }
    Makes(s, a);
    forall c | c in Apply(s, a).cbs ensures Listed(Apply(s, a), c) { ListedStep(s, a, c); }
    StopperStep(s, a);
  }

  lemma {:induction false} CallsRun(run: seq<State>, acts: seq<Action>, i: nat)
    requires IsRun(run, acts) && i < |run|
    ensures CallsOk(run[i])
  {
    if i > 0 {
      CallsRun(run, acts, i - 1);
      RunInv(run, acts, i - 1);
      StepOf(run, acts, i - 1);
      CallsStep(run[i - 1], acts[i - 1]);
    }
  }

  // No call on `t` is under way, or the innermost one is in a body: the caller's own code runs.
  predicate InCallersCode(s: State, t: Tid) {
    var l := Stack(s, t);
    l == [] || (match l[|l| - 1]
                case Ctor(c) => c in s.cbs && s.cbs[c].pc.Inline?
                case Dtor(_) => false
                case Stopper => HasCb(s.note) && s.note == Body(s.note.c))
  }

  /** Callers may construct a callback, destroy one that has been constructed, and request a stop, outside the library
      and inside any body, and nowhere else; a request only waits for the lock. */
  lemma CallersMay(s: State, t: Tid, c: Cb)
    ensures Enabled(s, OfCtor(t, c, Construct)) <==> InCallersCode(s, t) && c !in s.cbs
    ensures Enabled(s, OfDtor(t, c, Destroy)) <==> InCallersCode(s, t) && c in s.cbs && s.cbs[c].pc.Live?
    ensures Enabled(s, OfStop(t, StopTry)) <==> InCallersCode(s, t) && (s.word.locked ==> s.word.stop)
  {}

  // `t` can take a step of the innermost call it is in.
  ghost predicate CanGoOn(s: State, t: Tid) { exists a: Action :: a.t == t && !Begins(a) && Enabled(s, a) }

  // It spins in a destructor until the body of the callback has returned.
  predicate WaitsForBody(s: State, t: Tid, c: Cb) {
    On(s, t, Dtor(c)) && c in s.cbs && s.cbs[c].pc.RemWait? && !s.cbs[c].completed
  }

  // The next step of a call.
  function NextOfCtor(s: State, c: Cb): CtorStep
    requires c in s.cbs
  {
    match s.cbs[c].pc
    case AddLock => AddTry
    case AddLink => Link
    case AddUnlock => LinkUnlock
    case _ => InlineEnd
  }

  function NextOfDtor(s: State, c: Cb): DtorStep
    requires c in s.cbs
  {
    match s.cbs[c].pc
    case RemLock => RemTry
    case RemTest(_) => Unlink
    case RemUnlockOut(_) => OutUnlock
    case RemUnlockRan(_, _) => RanUnlock
    case RemSelf => SelfRemove
    case _ => WaitOver
  }

  function NextOfStop(s: State): StopStep {
    match s.note
    case Own => TakeOver
    case Loop => if s.list == [] then Finish else Pop
    case Popped(_) => Release
    case Arm(_) => Run
    case Body(_) => BodyEnd
    case Test(_) => ReadFlag
    case Clear(_) => Disarm
    case Complete(_) => SetCompleted
    case _ => LockAgain
  }

  lemma CtorGoesOn(s: State, t: Tid, c: Cb)
    requires On(s, t, Ctor(c)) && FrameOk(s, t, Ctor(c), true) && (s.word.locked ==> InCtorLock(s.cbs[c].pc))
    ensures CanGoOn(s, t)
  {
    var a := OfCtor(t, c, NextOfCtor(s, c));
    assert Enabled(s, a) && !Begins(a);
  }

  lemma DtorGoesOn(s: State, t: Tid, c: Cb)
    requires On(s, t, Dtor(c)) && FrameOk(s, t, Dtor(c), true) && (s.word.locked ==> InDtorLock(s.cbs[c].pc))
    ensures CanGoOn(s, t) || WaitsForBody(s, t, c)
  {
    var a := OfDtor(t, c, NextOfDtor(s, c));
    assert Enabled(s, a) || WaitsForBody(s, t, c);
    assert !Begins(a) && a.t == t;
  }

  lemma StopGoesOn(s: State, t: Tid)
    requires ListOk(s) && NoteOk(s)
    requires On(s, t, Stopper) && FrameOk(s, t, Stopper, true) && (s.word.locked ==> InStopLock(s.note))
    ensures CanGoOn(s, t)
  {
    var a := OfStop(t, NextOfStop(s));
    if s.note.Loop? && s.list != [] { assert s.list[0] in s.list; }
    assert Enabled(s, a) && !Begins(a) && a.t == t;
  }

  // A call that is in a critical section is the innermost one of its thread.
  lemma OnTop(s: State, t: Tid, x: Call)
    requires NestOk(s, t) && x in Stack(s, t) && InSection(s, x)
    ensures On(s, t, x) && FrameOk(s, t, x, true)
  {
    var k :| 0 <= k < |Stack(s, t)| && Stack(s, t)[k] == x;
    assert FrameOk(s, t, x, k == |Stack(s, t)| - 1);
  }

  lemma HolderGoesOn(s: State) returns (t: Tid)
    requires Inv(s) && CallsOk(s) && s.word.locked
    ensures CanGoOn(s, t)
  {
    var x := s.holder.value;
    HolderInSection(s);
    t := if x.Stopper? then s.winner else s.cbs[x.c].owner;
    assert NestOk(s, t);
    match x {
      case Ctor(c) =>
        assert Listed(s, c);
        OnTop(s, t, x);
        CtorGoesOn(s, t, c);
      case Dtor(c) =>
        assert Listed(s, c);
        OnTop(s, t, x);
        DtorGoesOn(s, t, c);
      case Stopper =>
        OnTop(s, t, x);
        StopGoesOn(s, t);
    }
  }

  lemma TopGoesOn(s: State, t: Tid)
    requires Inv(s) && CallsOk(s) && !s.word.locked && Stack(s, t) != []
    ensures CanGoOn(s, t) || exists c :: WaitsForBody(s, t, c)
  {
    var x := Stack(s, t)[|Stack(s, t)| - 1];
    assert NestOk(s, t) && FrameOk(s, t, x, true);
    match x
    case Ctor(c) => CtorGoesOn(s, t, c);
    case Dtor(c) => DtorGoesOn(s, t, c);
    case Stopper => StopGoesOn(s, t);
  }

  /** A destructor waits only for the body that the notifier has started on another thread and not yet marked as
      completed. */
  lemma WaitIsFor(run: seq<State>, acts: seq<Action>, i: nat, t: Tid, c: Cb)
    requires IsRun(run, acts) && i < |run| && WaitsForBody(run[i], t, c)
    ensures Current(run[i], c) && run[i].winner != t && Stopper in Stack(run[i], run[i].winner)
  {
    RunInv(run, acts, i);
    CallsRun(run, acts, i);
    Waiting(run[i], t, c);
  }

  lemma Waiting(s: State, t: Tid, c: Cb)
    requires Inv(s) && CallsOk(s) && WaitsForBody(s, t, c)
    ensures Current(s, c) && s.winner != t && Stopper in Stack(s, s.winner)
  {
    assert CallbackOk(s, c) && NestOk(s, t) && FrameOk(s, t, Dtor(c), true);
  }

  /** No deadlock: while any thread is in a call, some thread can take a step of its innermost one. Bodies may
      construct and destroy callbacks, themselves included, and request a stop, to any depth. */
  lemma NeverStuck(run: seq<State>, acts: seq<Action>, i: nat, t: Tid)
    requires IsRun(run, acts) && i < |run| && Stack(run[i], t) != []
    ensures exists u :: CanGoOn(run[i], u)
  {
    RunInv(run, acts, i);
    CallsRun(run, acts, i);
    var s := run[i];
    if s.word.locked {
      var u := HolderGoesOn(s);
    } else {
      TopGoesOn(s, t);
      if c :| WaitsForBody(s, t, c) {
        Waiting(s, t, c);
        TopGoesOn(s, s.winner);
        if d :| WaitsForBody(s, s.winner, d) { Waiting(s, s.winner, d); }
      }
    }
  }
}

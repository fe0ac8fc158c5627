/**
 `inplace_stop_source` and `inplace_stop_callback`.

 The protocol is a state machine over any number of threads. Every atomic operation, and every region
 between taking and releasing the lock bit, is one step (or several). A thread runs a stack of activations: a
 constructor or a destructor of a callback, or the `request_stop` call that won. The body of a callback
 may itself construct and destroy callbacks and request a stop, so activations nest.

 The second half of the file is the intrusive list in place, with its back links to cells.
 */
module StopToken {
  import opened Options
  import opened Basics

  type Tid = nat
  type Cb = nat

  // The two bits of `__state_`. The code stores whole words, so the stores below do too.
  datatype Word = Word(stop: bool, locked: bool)

  // How far the constructor (Add*, Inline) or the destructor (Rem*) of a callback object has come.
  datatype Pc =
    | AddLock                                     // __try_lock_unless_stop_requested_(false)
    | AddLink                                     // lock held, not linked yet
    | AddUnlock                                   // lock held, linked
    | Inline                                      // refused: the body runs inside the constructor
    | Live
    | RemLock                                     // __lock_()
    | RemTest(saved: Word)                          // lock held, about to read __prev_ptr_
    | RemUnlockOut(saved: Word)                     // lock held, unlinked
    | RemUnlockRan(saved: Word, who: Option<Tid>)   // lock held, __notifying_thread_ read
    | RemSelf                                     // on the notifying thread
    | RemWait                                     // elsewhere: spin on __callback_completed_
    | Dead                                        // destructor returned: memory is gone

  // `attached`, `linked`, `armed`, `completed` are the object's members `__source_ != nullptr`,
  // `__prev_ptr_ != nullptr`, `__removed_during_callback_ != nullptr` and `__callback_completed_`.
  // `runs` and `withdrawn` are history: bodies started, and unlinked by the destructor before any ran.
  datatype Callback = Callback(
    pc: Pc, owner: Tid, attached: bool, linked: bool, armed: bool, completed: bool, runs: nat, withdrawn: bool)

  // How far the winning `request_stop` has come.
  datatype Note =
    | Idle
    | Own                // lock held, about to set __notifying_thread_
    | Loop               // lock held, at the loop test
    | Popped(c: Cb)      // lock held, about to store the stop flag
    | Arm(c: Cb)         // about to publish the local flag in the callback and run it
    | Body(c: Cb)
    | Test(c: Cb)        // about to read the local flag
    | Clear(c: Cb)
    | Complete(c: Cb)
    | Relock
    | Done

  datatype Call = Ctor(c: Cb) | Dtor(c: Cb) | Stopper

  // `removed` is the winner's local `__removed_during_callback`; `holder` is history for the lock bit;
  // `winner` is the thread of the winning call; `falses` counts the calls that returned false.
  datatype State = State(
    word: Word, list: seq<Cb>, cbs: map<Cb, Callback>, notifying: Option<Tid>,
    note: Note, winner: Tid, removed: bool, stacks: map<Tid, seq<Call>>,
    holder: Option<Call>, falses: nat)

  datatype CtorStep = Construct | AddTry | Link | LinkUnlock | InlineEnd

  datatype DtorStep = Destroy | RemTry | Unlink | OutUnlock | RanUnlock | SelfRemove | WaitOver

  datatype StopStep =
    | StopTry | TakeOver | Pop | Finish | Release | Run | BodyEnd | ReadFlag | Disarm | SetCompleted | LockAgain

  // Thread `t` performs one step of the constructor or destructor of `c`, or of a `request_stop` call.
  datatype Action = OfCtor(t: Tid, c: Cb, ctor: CtorStep)
    | OfDtor(t: Tid, c: Cb, dtor: DtorStep) | OfStop(t: Tid, stop: StopStep)

  // ---------------------------------------------------------------- helpers on lists and stacks

  /** The list without `c`. */
  function Without<T(==)>(l: seq<T>, c: T): (r: seq<T>)
    ensures |r| <= |l|
  {
    if l == [] then [] else if l[0] == c then l[1..] else [l[0]] + Without(l[1..], c)
  }

  lemma {:induction false} WithoutMembers<T>(l: seq<T>, c: T)
    requires Distinct(l)
    ensures Distinct(Without(l, c))
    ensures forall x :: x in Without(l, c) <==> x in l && x != c
  {
    if l != [] {
      assert Distinct(l[1..]);
      assert forall x :: x in l <==> x == l[0] || x in l[1..];
      assert l[0] !in l[1..];
      if l[0] != c {
        WithoutMembers(l[1..], c);
        assert l[0] !in Without(l[1..], c);
      }
    }
  }

  function Stack(s: State, t: Tid): seq<Call> { if t in s.stacks then s.stacks[t] else [] }

  predicate On(s: State, t: Tid, a: Call) { Stack(s, t) != [] && Stack(s, t)[|Stack(s, t)| - 1] == a }

  // Code of the caller runs on `t`: the thread is outside the library, or inside a callback body.
  predicate MayCall(s: State, t: Tid) {
    Stack(s, t) == [] ||
    match Stack(s, t)[|Stack(s, t)| - 1]
    case Ctor(c) => c in s.cbs && s.cbs[c].pc.Inline?
    case Dtor(c) => false
    case Stopper => s.note.Body?
  }

  function Push(s: State, t: Tid, a: Call): map<Tid, seq<Call>> { s.stacks[t := Stack(s, t) + [a]] }

  function Drop(s: State, t: Tid): map<Tid, seq<Call>>
    requires Stack(s, t) != []
  {
    s.stacks[t := Stack(s, t)[..|Stack(s, t)| - 1]]
  }

  // ---------------------------------------------------------------- the steps

  predicate AtCtor(s: State, t: Tid, c: Cb) { On(s, t, Ctor(c)) && c in s.cbs && s.cbs[c].owner == t }

  predicate AtDtor(s: State, t: Tid, c: Cb) { On(s, t, Dtor(c)) && c in s.cbs && s.cbs[c].owner == t }

  predicate AtStop(s: State, t: Tid) { On(s, t, Stopper) && s.winner == t }

  function Put(s: State, c: Cb, b: Callback): map<Cb, Callback> { s.cbs[c := b] }

  predicate CtorEnabled(s: State, t: Tid, c: Cb, k: CtorStep) {
    match k
    case Construct => MayCall(s, t) && c !in s.cbs
    case AddTry => AtCtor(s, t, c) && s.cbs[c].pc.AddLock? && (s.word.stop || !s.word.locked)
    case Link => AtCtor(s, t, c) && s.cbs[c].pc.AddLink?
    case LinkUnlock => AtCtor(s, t, c) && s.cbs[c].pc.AddUnlock?
    case InlineEnd => AtCtor(s, t, c) && s.cbs[c].pc.Inline?
  }

  function CtorApply(s: State, t: Tid, c: Cb, k: CtorStep): State
    requires CtorEnabled(s, t, c, k)
  {
    match k
    case Construct =>
      s.(cbs := Put(s, c, Callback(AddLock, t, true, false, false, false, 0, false)), stacks := Push(s, t, Ctor(c)))
    case AddTry =>
      if s.word.stop then
        s.(cbs := Put(s, c, s.cbs[c].(pc := Inline, attached := false, runs := s.cbs[c].runs + 1)))
      else
        s.(word := Word(false, true), holder := Some(Ctor(c)), cbs := Put(s, c, s.cbs[c].(pc := AddLink)))
    case Link =>
      s.(list := [c] + s.list, cbs := Put(s, c, s.cbs[c].(pc := AddUnlock, linked := true)))
    case LinkUnlock =>
      s.(word := Word(false, false), holder := None, cbs := Put(s, c, s.cbs[c].(pc := Live)), stacks := Drop(s, t))
    case InlineEnd =>
      s.(cbs := Put(s, c, s.cbs[c].(pc := Live)), stacks := Drop(s, t))
  }

  predicate DtorEnabled(s: State, t: Tid, c: Cb, k: DtorStep) {
    match k
    case Destroy => MayCall(s, t) && c in s.cbs && s.cbs[c].pc.Live?
    case RemTry => AtDtor(s, t, c) && s.cbs[c].pc.RemLock? && !s.word.locked
    case Unlink => AtDtor(s, t, c) && s.cbs[c].pc.RemTest?
    case OutUnlock => AtDtor(s, t, c) && s.cbs[c].pc.RemUnlockOut?
    case RanUnlock => AtDtor(s, t, c) && s.cbs[c].pc.RemUnlockRan?
    case SelfRemove => AtDtor(s, t, c) && s.cbs[c].pc.RemSelf?
    case WaitOver => AtDtor(s, t, c) && s.cbs[c].pc.RemWait? && s.cbs[c].completed
  }

  function DtorApply(s: State, t: Tid, c: Cb, k: DtorStep): State
    requires DtorEnabled(s, t, c, k)
  {
    match k
    case Destroy =>
      if !s.cbs[c].attached then s.(cbs := Put(s, c, s.cbs[c].(pc := Dead)))
      else s.(cbs := Put(s, c, s.cbs[c].(pc := RemLock, owner := t)), stacks := Push(s, t, Dtor(c)))
    case RemTry =>
      s.(word := s.word.(locked := true), holder := Some(Dtor(c)), cbs := Put(s, c, s.cbs[c].(pc := RemTest(s.word))))
    case Unlink =>
      var b := s.cbs[c];
      if b.linked then
        s.(list := Without(s.list, c),
           cbs := Put(s, c, b.(pc := RemUnlockOut(b.pc.saved), linked := false, withdrawn := true)))
      else
        s.(cbs := Put(s, c, b.(pc := RemUnlockRan(b.pc.saved, s.notifying))))
    case OutUnlock =>
      s.(word := s.cbs[c].pc.saved, holder := None, cbs := Put(s, c, s.cbs[c].(pc := Dead)), stacks := Drop(s, t))
    case RanUnlock =>
      var b := s.cbs[c];
      s.(word := b.pc.saved, holder := None,
         cbs := Put(s, c, b.(pc := if b.pc.who == Some(t) then RemSelf else RemWait)))
    case SelfRemove =>
      s.(removed := s.cbs[c].armed || s.removed, cbs := Put(s, c, s.cbs[c].(pc := Dead)), stacks := Drop(s, t))
    case WaitOver =>
      s.(cbs := Put(s, c, s.cbs[c].(pc := Dead)), stacks := Drop(s, t))
  }

  predicate StopEnabled(s: State, t: Tid, k: StopStep) {
    match k
    case StopTry => MayCall(s, t) && (s.word.stop || !s.word.locked)
    case TakeOver => AtStop(s, t) && s.note.Own?
    case Pop => AtStop(s, t) && s.note.Loop? && s.list != [] && s.list[0] in s.cbs
    case Finish => AtStop(s, t) && s.note.Loop? && s.list == []
    case Release => AtStop(s, t) && s.note.Popped?
    case Run => AtStop(s, t) && s.note.Arm? && s.note.c in s.cbs
    case BodyEnd => AtStop(s, t) && s.note.Body?
    case ReadFlag => AtStop(s, t) && s.note.Test?
    case Disarm => AtStop(s, t) && s.note.Clear? && s.note.c in s.cbs
    case SetCompleted => AtStop(s, t) && s.note.Complete? && s.note.c in s.cbs
    case LockAgain => AtStop(s, t) && s.note.Relock? && !s.word.locked
  }

  function StopApply(s: State, t: Tid, k: StopStep): State
    requires StopEnabled(s, t, k)
  {
    match k
    case StopTry =>
      if s.word.stop then s
      else s.(word := Word(true, true), holder := Some(Stopper), note := Own,
              winner := t, stacks := Push(s, t, Stopper))
    case TakeOver => s.(notifying := Some(t), note := Loop)
    case Pop =>
      var c := s.list[0];
      s.(list := s.list[1..], cbs := Put(s, c, s.cbs[c].(linked := false)), note := Popped(c))
    case Finish =>
      s.(word := Word(true, false), holder := None, note := Done, falses := s.falses + 1, stacks := Drop(s, t))
    case Release => s.(word := Word(true, false), holder := None, note := Arm(s.note.c))
    case Run =>
      var c := s.note.c;
      s.(removed := false, cbs := Put(s, c, s.cbs[c].(armed := true, runs := s.cbs[c].runs + 1)), note := Body(c))
    case BodyEnd => s.(note := Test(s.note.c))
    case ReadFlag => s.(note := if s.removed then Relock else Clear(s.note.c))
    case Disarm =>
      s.(cbs := Put(s, s.note.c, s.cbs[s.note.c].(armed := false)), note := Complete(s.note.c))
    case SetCompleted =>
      s.(cbs := Put(s, s.note.c, s.cbs[s.note.c].(completed := true)), note := Relock)
    case LockAgain => s.(word := s.word.(locked := true), holder := Some(Stopper), note := Loop)
  }

  predicate Enabled(s: State, a: Action) {
    match a
    case OfCtor(t, c, k) => CtorEnabled(s, t, c, k)
    case OfDtor(t, c, k) => DtorEnabled(s, t, c, k)
    case OfStop(t, k) => StopEnabled(s, t, k)
  }

  function Apply(s: State, a: Action): State
    requires Enabled(s, a)
  {
    match a
    case OfCtor(t, c, k) => CtorApply(s, t, c, k)
    case OfDtor(t, c, k) => DtorApply(s, t, c, k)
    case OfStop(t, k) => StopApply(s, t, k)
  }

  predicate Init(s: State) {
    s.word == Word(false, false) && s.list == [] && s.cbs == map[] && s.notifying == None && s.note == Idle
    && s.stacks == map[] && s.holder == None && s.falses == 0
  }

  // ---------------------------------------------------------------- the invariant

  // The callback the winner is busy with, and whether its body is running.
  predicate Current(s: State, c: Cb) { HasCb(s.note) && s.note.c == c }

  predicate HasCb(n: Note) {
    n.Popped? || n.Arm? || n.Body? || n.Test? || n.Clear? || n.Complete?
  }

  predicate Running(s: State, c: Cb) { s.note == Body(c) || (c in s.cbs && s.cbs[c].pc.Inline?) }

  predicate InCtorLock(p: Pc) { p.AddLink? || p.AddUnlock? }

  predicate InDtorLock(p: Pc) { p.RemTest? || p.RemUnlockOut? || p.RemUnlockRan? }

  predicate InStopLock(n: Note) { n.Own? || n.Loop? || n.Popped? }

  predicate LockOk(s: State) {
    && (s.word.locked <==> s.holder.Some?)
    && (s.holder == Some(Stopper) <==> InStopLock(s.note))
    && (s.word.stop <==> !s.note.Idle?)
    && (s.holder.Some? && !s.holder.value.Stopper? ==> s.holder.value.c in s.cbs)
  }

  // What the lock bit has to do with `c`: while one of its activations is in a critical section that
  // activation holds the lock, and the word it will store back is the current one without the lock bit.
  predicate HoldOk(s: State, c: Cb)
    requires c in s.cbs
  {
    var p := s.cbs[c].pc;
    && (s.holder == Some(Ctor(c)) <==> InCtorLock(p))
    && (s.holder == Some(Dtor(c)) <==> InDtorLock(p))
    && (InCtorLock(p) ==> !s.word.stop)
    && (InDtorLock(p) ==> p.saved == Word(s.word.stop, false))
  }

  ghost predicate ListOk(s: State) {
    && Distinct(s.list)
    && (forall c :: c in s.list <==> c in s.cbs && s.cbs[c].linked)
  }

  // The winner's own thread: while it is not in a callback body, its activation is on top of its stack.
  ghost predicate NoteOk(s: State) {
    && (s.note.Idle? || s.note.Own? ==> s.notifying == None)
    && (!s.note.Idle? && !s.note.Own? ==> s.notifying == Some(s.winner))
    && (!s.note.Idle? && !s.note.Done? && !s.note.Body? ==> On(s, s.winner, Stopper))
    && (s.note.Done? ==> s.list == [])
    && s.falses == (if s.note.Done? then 1 else 0)
    && (HasCb(s.note) ==> s.note.c in s.cbs && s.cbs[s.note.c].attached && !s.cbs[s.note.c].linked)
    && (s.note.Body? || s.note.Test? ==> (s.removed <==> s.cbs[s.note.c].pc.Dead?))
    && (HasCb(s.note) && !s.note.Body? && !s.note.Test? ==> !s.cbs[s.note.c].pc.Dead?)
  }

  // An attached callback that is no longer linked and was not withdrawn has been taken by the winner.
  predicate TakenOk(s: State, c: Cb)
    requires c in s.cbs
  {
    var b := s.cbs[c];
    if Current(s, c) then
      && !b.completed
      && (s.note.Popped? || s.note.Arm? ==> b.runs == 0 && !b.armed)
      && (s.note.Body? || s.note.Test? || s.note.Clear? ==> b.runs == 1 && b.armed)
      && (s.note.Complete? ==> b.runs == 1 && !b.armed)
    else b.runs == 1 && (b.pc.Dead? || (b.completed && !b.armed))
  }

  predicate CallbackOk(s: State, c: Cb)
    requires c in s.cbs
  {
    var b := s.cbs[c];
    && (b.linked ==> b.attached && b.runs == 0 && !b.withdrawn && !b.armed && !b.completed)
    && (b.linked ==> b.pc.AddUnlock? || b.pc.Live? || b.pc.RemLock? || b.pc.RemTest?)
    && (b.withdrawn ==> b.attached && !b.linked && b.runs == 0 && (b.pc.RemUnlockOut? || b.pc.Dead?))
    && (b.pc.RemUnlockOut? ==> b.withdrawn)
    && (b.pc.AddLock? || b.pc.AddLink? ==> b.attached && !b.linked && b.runs == 0 && !b.armed && !b.completed)
    && (b.pc.AddUnlock? ==> b.linked)
    && (b.pc.Inline? ==> !b.attached)
    && (!b.attached ==> b.runs == 1 && !b.linked && (b.pc.Inline? || b.pc.Live? || b.pc.Dead?))
    && (b.pc.RemUnlockRan? || b.pc.RemSelf? || b.pc.RemWait? ==> !b.linked && !b.withdrawn)
    && (b.pc.RemUnlockRan? ==> b.pc.who == s.notifying)
    && (b.pc.RemSelf? ==> s.notifying == Some(b.owner))
    && (b.pc.RemWait? ==> s.notifying != Some(b.owner))
    && (b.pc.AddLock? || b.pc.AddLink? || b.withdrawn ==> !Current(s, c))
    && (Taken(b) ==> TakenOk(s, c) && !s.note.Idle? && !s.note.Own?)
  }

  predicate Taken(b: Callback) {
    b.attached && !b.linked && !b.withdrawn && !b.pc.AddLock? && !b.pc.AddLink?
  }

  // A body that outlives its callback object was destroyed by the winner's own thread.
  ghost predicate SelfOk(s: State) {
    s.note.Body? && s.note.c in s.cbs && s.cbs[s.note.c].pc.Dead? ==> s.cbs[s.note.c].owner == s.winner
  }

  ghost predicate Inv(s: State) {
    && LockOk(s) && ListOk(s) && NoteOk(s) && SelfOk(s)
    && (forall c | c in s.cbs :: HoldOk(s, c) && CallbackOk(s, c))
  }

  lemma InitInv(s: State)
    requires Init(s)
    ensures Inv(s)
  {}

  lemma CtorLock(s: State, t: Tid, c: Cb, k: CtorStep)
    requires LockOk(s) && CtorEnabled(s, t, c, k) && (c in s.cbs ==> HoldOk(s, c))
    ensures LockOk(CtorApply(s, t, c, k))
  {}

  lemma CtorList(s: State, t: Tid, c: Cb, k: CtorStep)
    requires ListOk(s) && CtorEnabled(s, t, c, k) && (c in s.cbs ==> CallbackOk(s, c))
    ensures ListOk(CtorApply(s, t, c, k))
  {}

  lemma CtorNote(s: State, t: Tid, c: Cb, k: CtorStep)
    requires LockOk(s) && NoteOk(s) && SelfOk(s) && CtorEnabled(s, t, c, k)
    requires c in s.cbs ==> HoldOk(s, c) && CallbackOk(s, c)
    ensures NoteOk(CtorApply(s, t, c, k)) && SelfOk(CtorApply(s, t, c, k))
  {}

  lemma CtorHold(s: State, t: Tid, c: Cb, k: CtorStep)
    requires LockOk(s) && NoteOk(s) && SelfOk(s) && CtorEnabled(s, t, c, k)
    requires c in s.cbs ==> HoldOk(s, c) && CallbackOk(s, c)
    ensures HoldOk(CtorApply(s, t, c, k), c)
  {}

  lemma CtorCallback(s: State, t: Tid, c: Cb, k: CtorStep)
    requires LockOk(s) && NoteOk(s) && SelfOk(s) && CtorEnabled(s, t, c, k)
    requires c in s.cbs ==> HoldOk(s, c) && CallbackOk(s, c)
    ensures CallbackOk(CtorApply(s, t, c, k), c)
  {}

  lemma CtorOtherHold(s: State, t: Tid, c: Cb, k: CtorStep, d: Cb)
    requires LockOk(s) && CtorEnabled(s, t, c, k) && d in s.cbs && d != c
    requires HoldOk(s, d)
    requires c in s.cbs ==> HoldOk(s, c) && CallbackOk(s, c)
    ensures HoldOk(CtorApply(s, t, c, k), d)
  {}

  lemma CtorOther(s: State, t: Tid, c: Cb, k: CtorStep, d: Cb)
    requires CtorEnabled(s, t, c, k) && d in s.cbs && d != c
    requires CallbackOk(s, d)
    ensures CallbackOk(CtorApply(s, t, c, k), d)
  {
    var s' := CtorApply(s, t, c, k);
    assert s'.cbs[d] == s.cbs[d] && s'.note == s.note && s'.notifying == s.notifying;
  }

  lemma DtorLock(s: State, t: Tid, c: Cb, k: DtorStep)
    requires LockOk(s) && DtorEnabled(s, t, c, k) && HoldOk(s, c)
    ensures LockOk(DtorApply(s, t, c, k))
  {}

  lemma DtorList(s: State, t: Tid, c: Cb, k: DtorStep)
    requires ListOk(s) && DtorEnabled(s, t, c, k)
    ensures ListOk(DtorApply(s, t, c, k))
  {
    if k.Unlink? { UnlinkList(s, t, c); }
  }

  lemma UnlinkList(s: State, t: Tid, c: Cb)
    requires ListOk(s) && DtorEnabled(s, t, c, Unlink)
    ensures ListOk(DtorApply(s, t, c, Unlink))
  {
    WithoutMembers(s.list, c);
  }

  lemma DtorNote(s: State, t: Tid, c: Cb, k: DtorStep)
    requires LockOk(s) && NoteOk(s) && SelfOk(s) && DtorEnabled(s, t, c, k)
    requires c in s.cbs ==> HoldOk(s, c) && CallbackOk(s, c)
    ensures NoteOk(DtorApply(s, t, c, k)) && SelfOk(DtorApply(s, t, c, k))
  {}

  lemma DtorHold(s: State, t: Tid, c: Cb, k: DtorStep)
    requires LockOk(s) && NoteOk(s) && SelfOk(s) && DtorEnabled(s, t, c, k)
    requires c in s.cbs ==> HoldOk(s, c) && CallbackOk(s, c)
    ensures HoldOk(DtorApply(s, t, c, k), c)
  {}

  lemma DtorUnlinks(s: State, t: Tid, c: Cb)
    requires NoteOk(s) && DtorEnabled(s, t, c, Unlink) && CallbackOk(s, c)
    ensures CallbackOk(DtorApply(s, t, c, Unlink), c)
  {}

  lemma DtorCallback(s: State, t: Tid, c: Cb, k: DtorStep)
    requires NoteOk(s) && DtorEnabled(s, t, c, k) && CallbackOk(s, c)
    ensures CallbackOk(DtorApply(s, t, c, k), c)
  {
    if k.Unlink? { DtorUnlinks(s, t, c); }
  }

  lemma DtorOtherHold(s: State, t: Tid, c: Cb, k: DtorStep, d: Cb)
    requires LockOk(s) && DtorEnabled(s, t, c, k) && d in s.cbs && d != c
    requires HoldOk(s, d)
    requires c in s.cbs ==> HoldOk(s, c) && CallbackOk(s, c)
    ensures HoldOk(DtorApply(s, t, c, k), d)
  {}

  lemma DtorOther(s: State, t: Tid, c: Cb, k: DtorStep, d: Cb)
    requires DtorEnabled(s, t, c, k) && d in s.cbs && d != c
    requires CallbackOk(s, d)
    ensures CallbackOk(DtorApply(s, t, c, k), d)
  {
    var s' := DtorApply(s, t, c, k);
    assert s'.cbs[d] == s.cbs[d] && s'.note == s.note && s'.notifying == s.notifying;
  }

  lemma StopLock(s: State, t: Tid, k: StopStep)
    requires LockOk(s) && StopEnabled(s, t, k)
    ensures LockOk(StopApply(s, t, k))
  {}

  lemma StopList(s: State, t: Tid, k: StopStep)
    requires ListOk(s) && NoteOk(s) && StopEnabled(s, t, k)
    ensures ListOk(StopApply(s, t, k))
  {}

  // What the winner's next step is about: the callback it is busy with, or the first of the list.
  ghost predicate NextOk(s: State) {
    && (s.note.Loop? && s.list != [] ==> s.list[0] in s.cbs && CallbackOk(s, s.list[0]))
    && (HasCb(s.note) ==> s.note.c in s.cbs && CallbackOk(s, s.note.c))
  }

  lemma StopSelf(s: State, t: Tid, k: StopStep)
    requires NoteOk(s) && SelfOk(s) && NextOk(s) && StopEnabled(s, t, k)
    ensures SelfOk(StopApply(s, t, k))
  {}

  lemma StopNote(s: State, t: Tid, k: StopStep)
    requires NoteOk(s) && NextOk(s) && StopEnabled(s, t, k) && (s.word.stop <==> !s.note.Idle?)
    requires s.note.Loop? && s.list != [] ==> s.cbs[s.list[0]].linked
    ensures NoteOk(StopApply(s, t, k))
  {
    if k.Pop? { TakeNote(s, t); }
  }

  lemma TakeNote(s: State, t: Tid)
    requires NoteOk(s) && NextOk(s) && StopEnabled(s, t, Pop) && s.cbs[s.list[0]].linked
    ensures NoteOk(StopApply(s, t, Pop))
  {}

  lemma StopHold(s: State, t: Tid, k: StopStep, d: Cb)
    requires LockOk(s) && ListOk(s) && NoteOk(s) && SelfOk(s) && StopEnabled(s, t, k) && d in StopApply(s, t, k).cbs
    requires d in s.cbs ==> HoldOk(s, d) && CallbackOk(s, d)
    requires s.note.Loop? && s.list != [] ==> s.list[0] in s.cbs && HoldOk(s, s.list[0]) && CallbackOk(s, s.list[0])
    requires HasCb(s.note) ==> s.note.c in s.cbs && HoldOk(s, s.note.c) && CallbackOk(s, s.note.c)
    ensures HoldOk(StopApply(s, t, k), d)
  {}

  lemma StopTakes(s: State, t: Tid, d: Cb)
    requires LockOk(s) && ListOk(s) && NoteOk(s) && StopEnabled(s, t, Pop)
      && d in s.cbs && HoldOk(s, d) && CallbackOk(s, d)
    requires s.list[0] in s.cbs && HoldOk(s, s.list[0]) && CallbackOk(s, s.list[0])
    ensures CallbackOk(StopApply(s, t, Pop), d)
  {}

  lemma StopCallback(s: State, t: Tid, k: StopStep, d: Cb)
    requires LockOk(s) && ListOk(s) && NoteOk(s) && SelfOk(s) && StopEnabled(s, t, k) && d in StopApply(s, t, k).cbs
    requires d in s.cbs ==> HoldOk(s, d) && CallbackOk(s, d)
    requires s.note.Loop? && s.list != [] ==> s.list[0] in s.cbs && HoldOk(s, s.list[0]) && CallbackOk(s, s.list[0])
    requires HasCb(s.note) ==> s.note.c in s.cbs && HoldOk(s, s.note.c) && CallbackOk(s, s.note.c)
    ensures CallbackOk(StopApply(s, t, k), d)
  {
    if k.Pop? {
      StopTakes(s, t, d);
    } else if !Current(s, d) {
      StopOther(s, t, k, d);
    }
  }

  // A callback the winner is not busy with.
  lemma StopOther(s: State, t: Tid, k: StopStep, d: Cb)
    requires StopEnabled(s, t, k) && !k.Pop? && !Current(s, d) && d in s.cbs && CallbackOk(s, d) && HoldOk(s, d)
    requires LockOk(s) && NoteOk(s)
    ensures CallbackOk(StopApply(s, t, k), d)
  {
    assert StopApply(s, t, k).cbs[d] == s.cbs[d];
  }

  lemma CtorInv(s: State, t: Tid, c: Cb, k: CtorStep)
    requires Inv(s) && CtorEnabled(s, t, c, k)
    ensures Inv(CtorApply(s, t, c, k))
  {
    CtorLock(s, t, c, k);
    CtorList(s, t, c, k);
    CtorNote(s, t, c, k);
    CtorHold(s, t, c, k);
    CtorCallback(s, t, c, k);
    forall d | d in s.cbs && d != c
      ensures HoldOk(CtorApply(s, t, c, k), d) && CallbackOk(CtorApply(s, t, c, k), d)
    {
      CtorOtherHold(s, t, c, k, d);
      CtorOther(s, t, c, k, d);
    }
  }

  lemma DtorInv(s: State, t: Tid, c: Cb, k: DtorStep)
    requires Inv(s) && DtorEnabled(s, t, c, k)
    ensures Inv(DtorApply(s, t, c, k))
  {
    DtorLock(s, t, c, k);
    DtorList(s, t, c, k);
    DtorNote(s, t, c, k);
    DtorHold(s, t, c, k);
    DtorCallback(s, t, c, k);
    forall d | d in s.cbs && d != c
      ensures HoldOk(DtorApply(s, t, c, k), d) && CallbackOk(DtorApply(s, t, c, k), d)
    {
      DtorOtherHold(s, t, c, k, d);
      DtorOther(s, t, c, k, d);
    }
    DtorKeepsDomain(s, t, c, k);
  }

  lemma DtorKeepsDomain(s: State, t: Tid, c: Cb, k: DtorStep)
    requires DtorEnabled(s, t, c, k)
    ensures DtorApply(s, t, c, k).cbs.Keys == s.cbs.Keys
  {}

  lemma StopInv(s: State, t: Tid, k: StopStep)
    requires Inv(s) && StopEnabled(s, t, k)
    ensures Inv(StopApply(s, t, k))
  {
    StopLock(s, t, k);
    StopList(s, t, k);
    StopSelf(s, t, k);
    StopNote(s, t, k);
    StopCallbacks(s, t, k);
  }

  lemma StopCallbacks(s: State, t: Tid, k: StopStep)
    requires Inv(s) && StopEnabled(s, t, k)
    ensures forall d | d in StopApply(s, t, k).cbs ::
              HoldOk(StopApply(s, t, k), d) && CallbackOk(StopApply(s, t, k), d)
  {
    forall d | d in StopApply(s, t, k).cbs
      ensures HoldOk(StopApply(s, t, k), d) && CallbackOk(StopApply(s, t, k), d)
    {
      StopHold(s, t, k, d);
      StopCallback(s, t, k, d);
    }
  }

  /** Every step of every thread keeps the invariant. */
  lemma StepInv(s: State, a: Action)
    requires Inv(s) && Enabled(s, a)
    ensures Inv(Apply(s, a))
  {
    match a
    case OfCtor(t, c, k) => CtorInv(s, t, c, k);
    case OfDtor(t, c, k) => DtorInv(s, t, c, k);
    case OfStop(t, k) => StopInv(s, t, k);
  }

  // ---------------------------------------------------------------- what holds over whole runs

  /** Any interleaving of any number of threads, from a fresh stop source. */
  ghost predicate IsRun(run: seq<State>, acts: seq<Action>) {
    && |run| == |acts| + 1 && Init(run[0])
    && forall i | 0 <= i < |acts| :: Enabled(run[i], acts[i]) && run[i + 1] == Apply(run[i], acts[i])
  }

  lemma {:induction false} RunInv(run: seq<State>, acts: seq<Action>, i: nat)
    requires IsRun(run, acts) && i < |run|
    ensures Inv(run[i])
  {
    if i == 0 {
      InitInv(run[0]);
    } else {
      RunInv(run, acts, i - 1);
      StepInv(run[i - 1], acts[i - 1]);
    }
  }

  // The activations that are between taking and giving back the lock bit.
  predicate InSection(s: State, a: Call) {
    match a
    case Ctor(c) => c in s.cbs && InCtorLock(s.cbs[c].pc)
    case Dtor(c) => c in s.cbs && InDtorLock(s.cbs[c].pc)
    case Stopper => InStopLock(s.note)
  }

  /** The lock bit is mutual exclusion, so the blind stores of whole words inside a section lose nothing:
      the word a destructor saved is still the current one, and a constructor may store 0. */
  lemma LockExcludes(run: seq<State>, acts: seq<Action>, i: nat, a: Call, b: Call)
    requires IsRun(run, acts) && i < |run|
    ensures InSection(run[i], a) && InSection(run[i], b) ==> a == b
    ensures InSection(run[i], a) ==> run[i].word.locked
    ensures run[i].word.locked ==> exists x :: InSection(run[i], x)
    ensures a.Ctor? && InSection(run[i], a) ==> !run[i].word.stop
    ensures a.Dtor? && InSection(run[i], a) ==> run[i].cbs[a.c].pc.saved == run[i].word.(locked := false)
  {
    RunInv(run, acts, i);
    var s := run[i];
    if s.word.locked {
      HolderInSection(s);
    }
    if InSection(s, a) && InSection(s, b) {
      assert a.Ctor? || a.Dtor? ==> HoldOk(s, a.c);
      assert b.Ctor? || b.Dtor? ==> HoldOk(s, b.c);
    }
  }

  lemma {:induction false} StopStays(run: seq<State>, acts: seq<Action>, i: nat, j: nat)
    requires IsRun(run, acts) && i <= j < |run| && run[i].word.stop
    ensures run[j].word.stop && run[i].falses <= run[j].falses
    decreases j
  {
    if i < j {
      StopStays(run, acts, i, j - 1);
      NoInsertionAt(run, acts, j - 1);
    }
  }

  /** The stop bit never clears, and at most one `request_stop` returns false: the code's inverted result. */
  lemma StopSticks(run: seq<State>, acts: seq<Action>, i: nat, j: nat)
    requires IsRun(run, acts) && i <= j < |run| && run[i].word.stop
    ensures run[j].word.stop && run[i].falses <= run[j].falses <= 1
    ensures run[j].falses == 1 <==> run[j].note.Done?
  {
    StopStays(run, acts, i, j);
    RunInv(run, acts, j);
  }

  // Pops by the notify loop among the actions lo..hi.
  function Pops(acts: seq<Action>, lo: nat, hi: nat): nat
    requires lo <= hi <= |acts|
  {
    if lo == hi then 0 else Pops(acts, lo, hi - 1) + (if acts[hi - 1].OfStop? && acts[hi - 1].stop.Pop? then 1 else 0)
  }

  /** The notify loop ends: once stop is set nothing is inserted, so the list bounds the turns that are left. */
  lemma NotifyLoopEnds(run: seq<State>, acts: seq<Action>, i: nat, j: nat)
    requires IsRun(run, acts) && i <= j < |run| && run[i].word.stop
    ensures Pops(acts, i, j) + |run[j].list| <= |run[i].list|
  {
    forall k | i <= k < j ensures Shrinks(run, acts, k) {
      StopSticks(run, acts, i, k);
      NoInsertionAt(run, acts, k);
    }
    PopsBounded(run, acts, i, j);
  }

  ghost predicate Shrinks(run: seq<State>, acts: seq<Action>, k: nat)
    requires k < |acts| < |run|
  {
    |run[k + 1].list| + (if acts[k].OfStop? && acts[k].stop.Pop? then 1 else 0) <= |run[k].list|
  }

  lemma {:induction false} PopsBounded(run: seq<State>, acts: seq<Action>, i: nat, j: nat)
    requires i <= j <= |acts| < |run| && forall k | i <= k < j :: Shrinks(run, acts, k)
    ensures Pops(acts, i, j) + |run[j].list| <= |run[i].list|
  {
    if i < j {
      PopsBounded(run, acts, i, j - 1);
      assert Shrinks(run, acts, j - 1);
    }
  }

  /** In every interleaving a callback body starts at most once. When the winning `request_stop` has
      returned, every callback whose constructor has returned has run exactly once, unless its own
      destructor took it off the list first; and none is still running on the winner's behalf. */
  lemma CallbackRunsOnce(run: seq<State>, acts: seq<Action>, i: nat, c: Cb)
    requires IsRun(run, acts) && i < |run| && c in run[i].cbs
    ensures run[i].cbs[c].runs <= 1
    ensures run[i].note.Done? && !run[i].cbs[c].pc.AddLock? && !run[i].cbs[c].withdrawn ==>
              run[i].cbs[c].runs == 1 && run[i].note != Body(c)
    ensures run[i].cbs[c].withdrawn ==> run[i].cbs[c].runs == 0
    ensures run[i].cbs[c].pc.Dead? && !run[i].cbs[c].withdrawn ==> run[i].cbs[c].runs == 1
  {
    RunInv(run, acts, i);
    assert HoldOk(run[i], c) && CallbackOk(run[i], c);
  }

  /** A destructor that returns on any thread but the notifier's leaves the body not running. */
  lemma RemovalWaits(run: seq<State>, acts: seq<Action>, i: nat, c: Cb)
    requires IsRun(run, acts) && i < |run| && c in run[i].cbs && run[i].cbs[c].pc.Dead?
    ensures Running(run[i], c) ==> run[i].cbs[c].owner == run[i].winner && run[i].notifying == Some(run[i].winner)
  {
    RunInv(run, acts, i);
  }

  /** And it stays so: after the destructor has returned the body never starts again. */
  lemma {:induction false} NeverAfterRemoval(run: seq<State>, acts: seq<Action>, i: nat, j: nat, c: Cb)
    requires IsRun(run, acts) && i <= j < |run| && c in run[i].cbs && run[i].cbs[c].pc.Dead?
    ensures c in run[j].cbs && run[j].cbs[c].pc.Dead? && run[j].cbs[c].runs == run[i].cbs[c].runs
    ensures Running(run[j], c) ==> Running(run[i], c)
    decreases j
  {
    if i < j {
      NeverAfterRemoval(run, acts, i, j - 1, c);
      RunInv(run, acts, j - 1);
      DeadStep(run[j - 1], acts[j - 1], c);
    }
  }

  // The callback objects whose members an action reads or writes, neighbours in the list included.
  ghost predicate Touches(s: State, a: Action, d: Cb) {
    match a
    case OfCtor(_, c, k) => (k != Construct && d == c) || (k == Link && s.list != [] && d == s.list[0])
    case OfDtor(_, c, k) => d == c || (k == Unlink && c in s.cbs && s.cbs[c].linked && d in s.list)
    case OfStop(_, k) =>
      (k == Pop && d in s.list) || ((k == Run || k == Disarm || k == SetCompleted) && HasCb(s.note) && d == s.note.c)
  }

  /** No step touches a callback after its destructor returned: not the winner, not a list neighbour. */
  lemma NeverTouchesDead(run: seq<State>, acts: seq<Action>, i: nat, d: Cb)
    requires IsRun(run, acts) && i < |acts| && Touches(run[i], acts[i], d)
    ensures d in run[i].cbs && !run[i].cbs[d].pc.Dead?
  {
    RunInv(run, acts, i);
    var s, a := run[i], acts[i];
    assert d in s.cbs ==> CallbackOk(s, d);
    if d in s.list { assert s.cbs[d].linked; }
  }

  /** A destructor that finds the published flag writes it while the winner's frame still holds it,
      before the winner reads it. */
  lemma FlagIsAlive(run: seq<State>, acts: seq<Action>, i: nat)
    requires IsRun(run, acts) && i < |acts|
    requires acts[i].OfDtor? && acts[i].dtor.SelfRemove? && run[i].cbs[acts[i].c].armed
    ensures run[i].note == Body(acts[i].c) && run[i + 1].removed
  {
    RunInv(run, acts, i);
    assert CallbackOk(run[i], acts[i].c);
  }

  // ---------------------------------------------------------------- single steps behind those results

  lemma HolderInSection(s: State)
    requires Inv(s) && s.holder.Some?
    ensures InSection(s, s.holder.value)
  {
    match s.holder.value
    case Ctor(c) => assert HoldOk(s, c);
    case Dtor(c) => assert HoldOk(s, c);
    case Stopper =>
  }

  predicate NoGrowth(s: State, s': State, popped: nat) {
    |s'.list| + popped <= |s.list| && s'.word.stop && s.falses <= s'.falses
  }

  lemma NoInsertionByStop(s: State, t: Tid, k: StopStep)
    requires s.word.stop && StopEnabled(s, t, k)
    ensures NoGrowth(s, StopApply(s, t, k), if k.Pop? then 1 else 0)
  {}

  lemma NoInsertion(s: State, a: Action)
    requires s.word.stop && Enabled(s, a)
    requires a.OfCtor? && a.c in s.cbs ==> HoldOk(s, a.c)
    requires a.OfDtor? && a.c in s.cbs ==> HoldOk(s, a.c)
    ensures NoGrowth(s, Apply(s, a), if a.OfStop? && a.stop.Pop? then 1 else 0)
  {
    if a.OfStop? { NoInsertionByStop(s, a.t, a.stop); }
  }

  lemma NoInsertionAt(run: seq<State>, acts: seq<Action>, i: nat)
    requires IsRun(run, acts) && i < |acts| && run[i].word.stop
    ensures |run[i + 1].list| + (if acts[i].OfStop? && acts[i].stop.Pop? then 1 else 0) <= |run[i].list|
    ensures run[i + 1].word.stop && run[i].falses <= run[i + 1].falses
  {
    RunInv(run, acts, i);
    NoInsertion(run[i], acts[i]);
  }

  lemma DeadByCtor(s: State, t: Tid, d: Cb, k: CtorStep, c: Cb)
    requires CtorEnabled(s, t, d, k) && c in s.cbs && s.cbs[c].pc.Dead?
    ensures var s' := CtorApply(s, t, d, k); c in s'.cbs && s'.cbs[c] == s.cbs[c] && s'.note == s.note
  {}

  lemma DeadByDtor(s: State, t: Tid, d: Cb, k: DtorStep, c: Cb)
    requires DtorEnabled(s, t, d, k) && c in s.cbs && s.cbs[c].pc.Dead?
    ensures var s' := DtorApply(s, t, d, k); c in s'.cbs && s'.cbs[c] == s.cbs[c] && s'.note == s.note
  {}

  lemma DeadByStop(s: State, t: Tid, k: StopStep, c: Cb)
    requires NoteOk(s) && ListOk(s) && StopEnabled(s, t, k) && c in s.cbs && s.cbs[c].pc.Dead? && CallbackOk(s, c)
    ensures var s' := StopApply(s, t, k);
      c in s'.cbs && s'.cbs[c].pc.Dead? && s'.cbs[c].runs == s.cbs[c].runs && (s'.note == Body(c) ==> s.note == Body(c))
  {}

  lemma DeadStep(s: State, a: Action, c: Cb)
    requires Inv(s) && Enabled(s, a) && c in s.cbs && s.cbs[c].pc.Dead?
    ensures var s' := Apply(s, a); c in s'.cbs && s'.cbs[c].pc.Dead? && s'.cbs[c].runs == s.cbs[c].runs
    ensures Running(Apply(s, a), c) ==> Running(s, c)
  {
    match a
    case OfCtor(t, d, k) => DeadByCtor(s, t, d, k, c);
    case OfDtor(t, d, k) => DeadByDtor(s, t, d, k, c);
    case OfStop(t, k) => DeadByStop(s, t, k, c);
  }

  // ---------------------------------------------------------------- the intrusive list in place

  // `__prev_ptr_` points at the cell that points at the node: the list head or a node's `__next_`.
  datatype Cell = NoCell | HeadCell | NextOf(node: Node)

  class Node {
    var next: Node?
    var prev: Cell

    constructor ()
      ensures next == null && prev == NoCell
    {
      next, prev := null, NoCell;
    }
  }

  class CallbackList {
    var callbacks: Node?
    ghost var list: seq<Node>

    // `*node->__prev_ptr_ == node` for every node, in list order, and the last `__next_` is null.
    ghost predicate Valid()
      reads this, list
    {
      && Distinct(list)
      && callbacks == (if list == [] then null else list[0])
      && (forall i {:trigger list[i].next} | 0 <= i < |list| ::
            list[i].next == if i + 1 < |list| then list[i + 1] else null)
      && (forall i {:trigger list[i].prev} | 0 <= i < |list| ::
            list[i].prev == if i == 0 then HeadCell else NextOf(list[i - 1]))
    }

    constructor ()
      ensures Valid() && list == []
    {
      callbacks, list := null, [];
    }

    /** The section of `__try_add_callback_`. */
    method LinkFront(c: Node)
      requires Valid() && c !in list
      modifies this, c, list
      ensures Valid() && list == [c] + old(list)
    {
      c.next := callbacks;
      c.prev := HeadCell;
      if callbacks != null {
        callbacks.prev := NextOf(c);
      }
      callbacks := c;
      list := [c] + list;
    }

    /** The section of `__remove_callback_` for a callback that has not run: constant time, from any place. */
    method Remove(c: Node)
      requires Valid() && c in list
      modifies this, list
      ensures Valid() && list == Without(old(list), c)
      ensures c !in list
    {
      ghost var k :| 0 <= k < |list| && list[k] == c;
      WithoutAt(list, k);
      WithoutMembers(list, c);
      Cut(c, k);
    }

    method Cut(c: Node, ghost k: nat)
      requires Valid() && k < |list| && list[k] == c
      modifies this, list
      ensures Valid() && list == old(list)[..k] + old(list)[k + 1..]
    {
      match c.prev {
        case HeadCell => callbacks := c.next;
        case NextOf(p) => p.next := c.next;
        case NoCell => assert false;
      }
      if c.next != null {
        c.next.prev := c.prev;
      }
      list := list[..k] + list[k + 1..];
    }

    /** One turn of the notify loop, up to giving the lock back. */
    method PopFront() returns (c: Node)
      requires Valid() && callbacks != null
      modifies this, list
      ensures Valid() && old(list) == [c] + list && c.prev == NoCell
    {
      c := callbacks;
      c.prev := NoCell;
      callbacks := c.next;
      if callbacks != null {
        callbacks.prev := HeadCell;
      }
      list := list[1..];
    }

    /** The notify loop when nothing interferes: every callback, in list order, and an empty list. */
    method NotifyAll() returns (order: seq<Node>)
      requires Valid()
      modifies this, list
      ensures Valid() && list == [] && order == old(list)
    {
      order := [];
      while callbacks != null
        invariant Valid() && order + list == old(list)
        invariant forall k | 0 <= k < |list| :: list[k] in old(list)
        decreases |list|
      {
        var c := PopFront();
        order := order + [c];
      }
    }
  }

  lemma {:induction false} WithoutAt<T>(l: seq<T>, k: nat)
    requires k < |l| && Distinct(l)
    ensures Without(l, l[k]) == l[..k] + l[k + 1..]
  {
    if k > 0 {
      assert l[1..][k - 1] == l[k] && Distinct(l[1..]);
      WithoutAt(l[1..], k - 1);
      assert l[..k] + l[k + 1..] == [l[0]] + (l[1..][..k - 1] + l[1..][k..]);
    }
  }
}

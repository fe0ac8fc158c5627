/**
 `dlfcn` on Windows: the list of objects opened with RTLD_LOCAL, how `dlopen` and `dlclose` update it, and
 where `dlsym` looks for a symbol.

 What the Windows calls answer is a parameter of each operation.
 */
module Dlfcn {
  import opened Options

  type Module = nat

  const NULL: Module := 0

  // ---------------------------------------------------------------- the marks, in list order

  function Added(marks: seq<Module>, h: Module, mallocOk: bool): (seq<Module>, bool) {
    if h == NULL || h in marks then (marks, true) else if mallocOk then (marks + [h], true) else (marks, false)
  }

  lemma AddedMeans(marks: seq<Module>, h: Module, mallocOk: bool)
    ensures var (after, ok) := Added(marks, h, mallocOk);
            && (ok <==> h == NULL || h in after)
            && (h in after <==> h in marks || (h != NULL && mallocOk))
            && (forall m | m != h :: m in after <==> m in marks)
  {}

  function Removed(marks: seq<Module>, h: Module): seq<Module> {
    if marks == [] then [] else if marks[0] == h then marks[1..] else [marks[0]] + Removed(marks[1..], h)
  }

  ghost predicate Clean(marks: seq<Module>) {
    NULL !in marks && forall i, j | 0 <= i < j < |marks| :: marks[i] != marks[j]
  }

  lemma {:induction false} RemovedMeans(marks: seq<Module>, h: Module)
    requires Clean(marks)
    ensures Clean(Removed(marks, h))
    ensures forall m :: m in Removed(marks, h) <==> m in marks && m != h
  {
    if marks != [] {
      var rest := marks[1..];
      assert marks == [marks[0]] + rest;
      RemovedMeans(rest, h);
      assert marks[0] !in rest && marks[0] !in Removed(rest, h);
    }
  }

  lemma {:induction false} RemovedAt(marks: seq<Module>, k: nat)
    requires k < |marks| && Clean(marks)
    ensures Removed(marks, marks[k]) == marks[..k] + marks[k + 1..]
  {
    if k > 0 {
      assert Clean(marks[1..]) && marks[1..][k - 1] == marks[k];
      RemovedAt(marks[1..], k - 1);
    }
  }

  lemma {:induction false} RemovedAbsent(marks: seq<Module>, h: Module)
    requires h !in marks
    ensures Removed(marks, h) == marks
  {
    if marks != [] { RemovedAbsent(marks[1..], h); }
  }

  // ---------------------------------------------------------------- opening and closing

  // `Open` of a named file: what `LoadLibraryExA` returns, the module counts before and after it (zero when
  // counting fails), and whether there is memory for a mark. `OpenProgram` is a null file name.
  datatype Call =
    | OpenProgram(program: Module)
    | OpenTooLong
    | Open(loaded: Module, before: nat, after: nat, isLocal: bool, mallocOk: bool)
    | Close(h: Module, freed: bool)

  function Marks(c: Call): Option<Module> {
    if c.Open? && c.loaded != NULL && c.isLocal && c.before != c.after && c.mallocOk then Some(c.loaded) else None
  }

  function Unmarks(c: Call): Option<Module> {
    match c
    case Open(loaded, before, after, isLocal, _) =>
      if loaded != NULL && !isLocal && before == after then Some(loaded) else None
    case Close(h, freed) => if freed then Some(h) else None
    case _ => None
  }

  // The marks after a call and the handle, or for `dlclose` the status, that it returns.
  function Apply(marks: seq<Module>, c: Call): (seq<Module>, nat) {
    match c
    case OpenProgram(program) => (marks, program)
    case OpenTooLong => (marks, NULL)
    case Open(loaded, before, after, isLocal, mallocOk) =>
      if loaded == NULL then (marks, NULL)
      else if isLocal && before != after then
        var (marks', ok) := Added(marks, loaded, mallocOk);
        (marks', if ok then loaded else NULL)
      else if !isLocal && before == after then (Removed(marks, loaded), loaded)
      else (marks, loaded)
    case Close(h, freed) => if freed then (Removed(marks, h), 0) else (marks, 1)
  }

  function Run(calls: seq<Call>): seq<Module> {
    if calls == [] then [] else Apply(Run(calls[..|calls| - 1]), calls[|calls| - 1]).0
  }

  // The last call that set or cleared the mark of `h` set it.
  ghost predicate MarkedLast(calls: seq<Call>, h: Module) {
    exists k | 0 <= k < |calls| :: Marks(calls[k]) == Some(h) &&
      forall j | k < j < |calls| :: Unmarks(calls[j]) != Some(h)
  }

  lemma ApplyMeans(marks: seq<Module>, c: Call)
    requires Clean(marks)
    ensures Clean(Apply(marks, c).0)
    ensures forall h :: h in Apply(marks, c).0 <==> (h in marks && Unmarks(c) != Some(h)) || Marks(c) == Some(h)
  {
    if c.Open? { RemovedMeans(marks, c.loaded); }
    if c.Close? { RemovedMeans(marks, c.h); }
  }

  /** After any sequence of calls the marks are a set, listed without duplicates: a module is marked iff
      the last of the calls that concern its mark was a local open that loaded something new. */
  lemma {:induction false} RunMeans(calls: seq<Call>)
    ensures Clean(Run(calls))
    ensures forall h :: h in Run(calls) <==> MarkedLast(calls, h)
  {
    if calls != [] {
      var n := |calls| - 1;
      RunMeans(calls[..n]);
      ApplyMeans(Run(calls[..n]), calls[n]);
      forall h ensures h in Run(calls) <==> MarkedLast(calls, h) { LastCall(calls, h); }
    }
  }

  lemma LastCall(calls: seq<Call>, h: Module)
    requires calls != []
    ensures var (init, c) := (calls[..|calls| - 1], calls[|calls| - 1]);
            MarkedLast(calls, h) <==> Marks(c) == Some(h) || (MarkedLast(init, h) && Unmarks(c) != Some(h))
  {
    var n := |calls| - 1;
    var init := calls[..n];
    if MarkedLast(init, h) && Unmarks(calls[n]) != Some(h) {
      var k :| 0 <= k < n && Marks(init[k]) == Some(h) && forall j | k < j < n :: Unmarks(init[j]) != Some(h);
      assert Marks(calls[k]) == Some(h) &&
        forall j | k < j < |calls| :: Unmarks(if j < n then init[j] else calls[n]) != Some(h);
    }
    if MarkedLast(calls, h) && Marks(calls[n]) != Some(h) {
      var k :| 0 <= k < |calls| && Marks(calls[k]) == Some(h) &&
        forall j | k < j < |calls| :: Unmarks(calls[j]) != Some(h);
      assert Marks(init[k]) == Some(h) && forall j | k < j < n :: Unmarks(init[j]) == Unmarks(calls[j]);
    }
  }

  /** `dlopen` returns the library it loaded, and nothing exactly if it loaded none, or had to mark it, it was not
      marked, and there was no memory for that. `dlclose` reports success as zero. */
  lemma AnswerMeans(marks: seq<Module>, c: Call)
    ensures c.Open? ==> Apply(marks, c).1 in {c.loaded, NULL}
    ensures c.Open? && c.loaded != NULL ==>
              (Apply(marks, c).1 == NULL <==>
                 c.isLocal && c.before != c.after && c.loaded !in marks && !c.mallocOk)
    ensures c.Close? ==> (Apply(marks, c).1 == 0 <==> c.freed)
    ensures c.OpenTooLong? ==> Apply(marks, c).1 == NULL
    ensures c.OpenProgram? ==> Apply(marks, c).1 == c.program
  {}

  // ---------------------------------------------------------------- finding a symbol

  type Address = nat                  // zero for a symbol that is not there

  datatype Handle = Default | Next | Of(h: Module)

  datatype Failure = InvalidParameter | NotEnoughMemory | ProcNotFound

  datatype Answer = Found(a: Address) | Failed(why: Failure)

  // `mods` is the loaded modules in load order, `proc` what `GetProcAddress` finds for the name in each
  // module, `caller` the module that calls `dlsym`.
  datatype World = World(program: Module, caller: Module, mods: seq<Module>, proc: Module -> Address,
    counted: bool, mallocOk: bool, listed: bool)

  predicate Candidate(w: World, marks: seq<Module>, m: Module) { m !in marks && w.proc(m) != 0 }

  // The loop from index `i` on; `skip` is `hCaller`, null once it has been met.
  function Scan(w: World, marks: seq<Module>, skip: Module, i: nat): Address
    requires i <= |w.mods|
    decreases |w.mods| - i
  {
    if i == |w.mods| then 0
    else if skip != NULL then Scan(w, marks, if skip == w.mods[i] then NULL else skip, i + 1)
    else if Candidate(w, marks, w.mods[i]) then w.proc(w.mods[i])
    else Scan(w, marks, NULL, i + 1)
  }

  function Answered(a: Address): Answer { if a != 0 then Found(a) else Failed(ProcNotFound) }

  // The part of `dlsym` behind the test for the program and RTLD_NEXT.
  function Search(w: World, marks: seq<Module>, skip: Module): Answer {
    if !w.counted then Failed(ProcNotFound)
    else if !w.mallocOk then Failed(NotEnoughMemory)
    else if !w.listed then Failed(ProcNotFound)
    else Answered(Scan(w, marks, skip, 0))
  }

  function Resolve(w: World, marks: seq<Module>, handle: Handle): Answer {
    if handle.Next? then
      if w.caller == NULL then Failed(InvalidParameter) else Search(w, marks, w.caller)
    else
      var h := if handle.Of? && handle.h != NULL then handle.h else w.program;
      if w.proc(h) != 0 then Found(w.proc(h))
      else if h == w.program then Search(w, marks, NULL)
      else Failed(ProcNotFound)
  }

  // `k` is the first module from index `from` on that defines the symbol and is not marked.
  ghost predicate FirstFrom(w: World, marks: seq<Module>, from: nat, k: nat) {
    && from <= k < |w.mods| && Candidate(w, marks, w.mods[k])
    && forall j | from <= j < k :: !Candidate(w, marks, w.mods[j])
  }

  ghost predicate NoneFrom(w: World, marks: seq<Module>, from: nat) {
    forall j | from <= j < |w.mods| :: !Candidate(w, marks, w.mods[j])
  }

  lemma {:induction false} ScanMeans(w: World, marks: seq<Module>, i: nat) returns (k: nat)
    requires i <= |w.mods|
    ensures if NoneFrom(w, marks, i) then Scan(w, marks, NULL, i) == 0
            else FirstFrom(w, marks, i, k) && Scan(w, marks, NULL, i) == w.proc(w.mods[k])
    decreases |w.mods| - i
  {
    k := i;
    if i < |w.mods| && !Candidate(w, marks, w.mods[i]) {
      k := ScanMeans(w, marks, i + 1);
    }
  }

  lemma {:induction false} ScanSkips(w: World, marks: seq<Module>, c: Module, i: nat, p: nat)
    requires c != NULL && i <= p < |w.mods| && w.mods[p] == c && forall j | i <= j < p :: w.mods[j] != c
    ensures Scan(w, marks, c, i) == Scan(w, marks, NULL, p + 1)
    decreases p - i
  {
    if i < p { ScanSkips(w, marks, c, i + 1, p); }
  }

  lemma {:induction false} ScanEmpty(w: World, marks: seq<Module>, c: Module, i: nat)
    requires c != NULL && i <= |w.mods| && forall j | i <= j < |w.mods| :: w.mods[j] != c
    ensures Scan(w, marks, c, i) == 0
    decreases |w.mods| - i
  {
    if i < |w.mods| { ScanEmpty(w, marks, c, i + 1); }
  }

  predicate Lists(w: World) { w.counted && w.mallocOk && w.listed }

  /** RTLD_NEXT finds the first definition behind the caller, which is at `p`, in load order that is not in
      a local object, and nothing if there is none. */
  lemma NextMeans(w: World, marks: seq<Module>, p: nat)
    requires Lists(w) && w.caller != NULL
    requires p < |w.mods| && w.mods[p] == w.caller && forall j | 0 <= j < p :: w.mods[j] != w.caller
    ensures if NoneFrom(w, marks, p + 1) then Resolve(w, marks, Next) == Failed(ProcNotFound)
            else exists k: nat :: FirstFrom(w, marks, p + 1, k) && Resolve(w, marks, Next) == Found(w.proc(w.mods[k]))
  {
    ScanSkips(w, marks, w.caller, 0, p);
    var k := ScanMeans(w, marks, p + 1);
  }

  /** From a caller that is not among the loaded modules it finds nothing. */
  lemma NextOfStranger(w: World, marks: seq<Module>)
    requires Lists(w) && w.caller !in w.mods
    ensures Resolve(w, marks, Next) == Failed(if w.caller == NULL then InvalidParameter else ProcNotFound)
  {
    if w.caller != NULL { ScanEmpty(w, marks, w.caller, 0); }
  }

  /** The handle of the program, or RTLD_DEFAULT, finds the program's own definition if there is one, and
      otherwise the first definition in load order that is not in a local object. */
  lemma ProgramMeans(w: World, marks: seq<Module>, handle: Handle)
    requires Lists(w) && handle in {Default, Of(NULL), Of(w.program)}
    ensures if w.proc(w.program) != 0 then Resolve(w, marks, handle) == Found(w.proc(w.program))
            else if NoneFrom(w, marks, 0) then Resolve(w, marks, handle) == Failed(ProcNotFound)
            else exists k: nat :: FirstFrom(w, marks, 0, k) && Resolve(w, marks, handle) == Found(w.proc(w.mods[k]))
  {
    var k := ScanMeans(w, marks, 0);
  }

  /** The handle of any other library finds what that library defines, and nothing else, whatever is marked. */
  lemma LibraryMeans(w: World, marks: seq<Module>, h: Module)
    requires h != NULL && h != w.program
    ensures w.proc(h) != 0 ==> Resolve(w, marks, Of(h)) == Found(w.proc(h))
    ensures w.proc(h) == 0 ==> Resolve(w, marks, Of(h)) == Failed(ProcNotFound)
  {}

  /** When the modules cannot be listed, only the program's own definition is found; the missing symbol is
      reported as such, unless it is memory for the list that is missing. */
  lemma UnlistedMeans(w: World, marks: seq<Module>, handle: Handle)
    requires !Lists(w) && handle in {Default, Next, Of(NULL), Of(w.program)}
    requires handle.Next? ==> w.caller != NULL
    ensures !handle.Next? && w.proc(w.program) != 0 ==> Resolve(w, marks, handle) == Found(w.proc(w.program))
    ensures handle.Next? || w.proc(w.program) == 0 ==>
              Resolve(w, marks, handle) == Failed(if w.counted && !w.mallocOk then NotEnoughMemory else ProcNotFound)
  {}

  /** From the history of calls to a lookup: a symbol that only one loaded library defines is found through
      the program exactly when the library is not marked local by the last call that concerns its mark. */
  lemma HiddenIff(w: World, calls: seq<Call>, lib: Module)
    requires Lists(w) && lib in w.mods && w.proc(lib) != 0
    requires w.proc(w.program) == 0 && forall m | m in w.mods && m != lib :: w.proc(m) == 0
    ensures Resolve(w, Run(calls), Default) ==
                if MarkedLast(calls, lib) then Failed(ProcNotFound) else Found(w.proc(lib))
  {
    var marks := Run(calls);
    RunMeans(calls);
    ProgramMeans(w, marks, Default);
    if !MarkedLast(calls, lib) {
      var p :| 0 <= p < |w.mods| && w.mods[p] == lib;
      assert Candidate(w, marks, w.mods[p]) && !NoneFrom(w, marks, 0);
    }
  }

  // ---------------------------------------------------------------- in place

  class LocalObject {
    const hModule: Module               // never assigned once the object is on the list
    var previous: LocalObject?
    var next: LocalObject?

    constructor (h: Module)
      ensures hModule == h && previous == null && next == null
    {
      hModule := h;
      previous, next := null, null;
    }
  }

  ghost function ModulesOf(objects: seq<LocalObject>): (s: seq<Module>)
    ensures |s| == |objects| && forall i | 0 <= i < |objects| :: s[i] == objects[i].hModule
  {
    if objects == [] then [] else [objects[0].hModule] + ModulesOf(objects[1..])
  }

  lemma {:induction false} ModulesWithout(objects: seq<LocalObject>, k: nat)
    requires k < |objects|
    ensures ModulesOf(objects[..k] + objects[k + 1..]) == ModulesOf(objects)[..k] + ModulesOf(objects)[k + 1..]
  {
    var left := objects[..k] + objects[k + 1..];
    if k == 0 {
      assert left == objects[1..];
    } else {
      assert left[0] == objects[0] && left[1..] == objects[1..][..k - 1] + objects[1..][k..];
      ModulesWithout(objects[1..], k - 1);
    }
  }

  lemma CutContents(objects: seq<LocalObject>, k: nat)
    requires k < |objects| && Clean(ModulesOf(objects))
    ensures var left := ModulesOf(objects[..k] + objects[k + 1..]);
            Clean(left) && left == Removed(ModulesOf(objects), objects[k].hModule)
  {
    ModulesWithout(objects, k);
    RemovedAt(ModulesOf(objects), k);
    RemovedMeans(ModulesOf(objects), objects[k].hModule);
  }

  class LocalList {
    const first: LocalObject             // `first_object`, which is static
    ghost var loads: multiset<Module>    // what the process has loaded and not freed, as Windows counts it
    ghost var nodes: seq<LocalObject>
    ghost var freed: set<LocalObject>

    // Both directions of the list go through `nodes`.
    ghost predicate Linked()
      reads this`nodes, nodes`previous, nodes`next
    {
      && nodes != [] && nodes[0] == first
      && (forall i, j | 0 <= i < j < |nodes| :: nodes[i] != nodes[j])
      && (forall i {:trigger nodes[i].next} | 0 <= i < |nodes| ::
            nodes[i].next == if i + 1 < |nodes| then nodes[i + 1] else null)
      && (forall i {:trigger nodes[i].previous} | 0 <= i < |nodes| ::
            nodes[i].previous == if i == 0 then null else nodes[i - 1])
    }

    // No freed object is on the list, and the modules are a set.
    ghost predicate Valid()
      reads this, nodes
    {
      && Linked() && first.hModule == NULL && Clean(Contents())
      && forall n | n in nodes :: n !in freed
    }

    ghost function Contents(): seq<Module>
      reads this`nodes
      requires nodes != []
    {
      ModulesOf(nodes[1..])
    }

    constructor ()
      ensures Valid() && Contents() == [] && freed == {} && loads == multiset{}
    {
      first := new LocalObject(NULL);
      nodes, freed, loads := [first], {}, multiset{};
    }

    method Search(h: Module) returns (o: LocalObject?)
      requires Valid()
      ensures o == null <==> h == NULL || h !in Contents()
      ensures o != null ==> o in nodes && o != first && o.hModule == h
    {
      if h == NULL {
        return null;
      }
      o := first;
      ghost var i := 0;
      while o != null
        invariant 0 <= i <= |nodes| && o == (if i < |nodes| then nodes[i] else null)
        invariant forall j | 0 <= j < i :: nodes[j].hModule != h
        decreases |nodes| - i
      {
        if o.hModule == h {
          assert Contents()[i - 1] == nodes[i].hModule;
          return;
        }
        o, i := o.next, i + 1;
      }
    }

    method Add(h: Module, mallocOk: bool) returns (ok: bool)
      requires Valid()
      modifies this`nodes, nodes
      ensures Valid() && freed == old(freed)
      ensures (Contents(), ok) == Added(old(Contents()), h, mallocOk)
      ensures ok <==> h == NULL || h in Contents()
    {
      if h == NULL {
        return true;
      }
      var o := Search(h);
      if o != null {
        return true;
      }
      var last := first;
      ghost var i := 0;
      while last.next != null
        invariant 0 <= i < |nodes| && last == nodes[i]
        decreases |nodes| - i
      {
        last, i := last.next, i + 1;
      }
      if !mallocOk {
        return false;
      }
      var n := new LocalObject(h);
      Append(last, n);
      ok := true;
      assert Contents() == old(Contents()) + [h];
    }

    method Append(last: LocalObject, n: LocalObject)
      requires Linked() && last == nodes[|nodes| - 1] && n !in nodes && n.next == null
      modifies this`nodes, nodes`next, n`previous
      ensures Linked() && nodes == old(nodes) + [n]
    {
      last.next := n;
      n.previous := last;
      nodes := nodes + [n];
    }

    // The object is freed; the sentinel never is.
    method Rem(h: Module)
      requires Valid()
      modifies this`nodes, this`freed, nodes
      ensures Valid() && first !in freed
      ensures Contents() == Removed(old(Contents()), h)
      ensures h in old(Contents()) ==> exists o | o in old(nodes) :: o.hModule == h && freed == old(freed) + {o}
      ensures h !in old(Contents()) ==> freed == old(freed)
    {
      if h != NULL {
        var o := Search(h);
        if o != null {
          Unlink(o);
          return;
        }
      }
      RemovedAbsent(Contents(), h);
    }

    method Unlink(o: LocalObject)
      requires Valid() && o in nodes && o != first
      modifies this`nodes, this`freed, nodes
      ensures Valid() && freed == old(freed) + {o}
      ensures Contents() == Removed(old(Contents()), o.hModule)
    {
      ghost var k :| 0 < k < |nodes| && nodes[k] == o;
      ghost var objects := nodes[1..];
      ghost var left := objects[..k - 1] + objects[k..];
      CutContents(objects, k - 1);
      Cut(o, k);
      freed := freed + {o};
    }

    method Cut(o: LocalObject, ghost k: nat)
      requires Linked() && 0 < k < |nodes| && nodes[k] == o
      modifies this`nodes, nodes`previous, nodes`next
      ensures Linked() && nodes == old(nodes)[..k] + old(nodes)[k + 1..]
      ensures nodes[1..] == old(nodes)[1..][..k - 1] + old(nodes)[1..][k..]
      ensures o !in nodes && forall n | n in nodes :: n in old(nodes)
    {
      ghost var was := nodes;
      if o.next != null {
        o.next.previous := o.previous;
      }
      if o.previous != null {
        o.previous.next := o.next;
      }
      nodes := nodes[..k] + nodes[k + 1..];
      forall i | 0 <= i < |nodes|
        ensures nodes[i].next == if i + 1 < |nodes| then nodes[i + 1] else null
        ensures nodes[i].previous == if i == 0 then null else nodes[i - 1]
      {
        assert nodes[i] == was[if i < k then i else i + 1];
      }
    }

    // `LoadLibraryExA` and `FreeLibrary`
    ghost method Load(h: Module)
      modifies this`loads
      ensures loads == old(loads) + if h == NULL then multiset{} else multiset{h}
    {
      loads := loads + if h == NULL then multiset{} else multiset{h};
    }

    ghost method Free(h: Module)
      modifies this`loads
      ensures loads == old(loads) - multiset{h}
    {
      loads := loads - multiset{h};
    }

    // `dlopen`. The library is loaded once more exactly if the call returns a handle on it: an open whose mark
    // cannot be stored is undone.
    method DlOpen(c: Call) returns (handle: Module)
      requires Valid() && !c.Close?
      modifies this`nodes, this`freed, this`loads, nodes
      ensures Valid() && (Contents(), handle) == Apply(old(Contents()), c)
      ensures loads == old(loads) + if c.Open? && handle != NULL then multiset{handle} else multiset{}
    {
      match c {
        case OpenProgram(program) => handle := program;
        case OpenTooLong => handle := NULL;
        case Open(loaded, before, after, isLocal, mallocOk) =>
          handle := loaded;
          Load(loaded);
          if handle != NULL {
            if isLocal && before != after {
              var ok := Add(handle, mallocOk);
              if !ok {
                Free(handle);
                handle := NULL;
              }
            } else if !isLocal && before == after {
              Rem(handle);
            }
          }
      }
    }

    // `dlclose`
    method DlClose(h: Module, freeOk: bool) returns (status: nat)
      requires Valid()
      modifies this`nodes, this`freed, this`loads, nodes
      ensures Valid() && (Contents(), status) == Apply(old(Contents()), Close(h, freeOk))
      ensures status == 0 <==> freeOk
      ensures loads == if freeOk then old(loads) - multiset{h} else old(loads)
    {
      if freeOk {
        Free(h);
        Rem(h);
      }
      status := if freeOk then 0 else 1;
    }

    // `dlsym`
    method DlSym(w: World, handle: Handle) returns (answer: Answer)
      requires Valid()
      ensures answer == Resolve(w, Contents(), handle)
      ensures handle.Of? && handle.h != NULL && handle.h != w.program ==>
                answer == if w.proc(handle.h) != 0 then Found(w.proc(handle.h)) else Failed(ProcNotFound)
    {
      var target, caller := w.program, NULL;
      if handle.Of? && handle.h != NULL {
        target := handle.h;
      }
      if handle.Next? {
        caller := w.caller;
        if caller == NULL {
          return Failed(InvalidParameter);
        }
      } else if w.proc(target) != 0 {
        return Found(w.proc(target));
      }
      if target == w.program || handle.Next? {
        if w.counted {
          if !w.mallocOk {
            return Failed(NotEnoughMemory);
          }
          if w.listed {
            var i := 0;
            while i < |w.mods|
              invariant 0 <= i <= |w.mods| && (caller != NULL ==> handle.Next?)
              invariant Scan(w, Contents(), caller, i) ==
                        Scan(w, Contents(), if handle.Next? then w.caller else NULL, 0)
            {
              var m := w.mods[i];
              i := i + 1;
              if handle.Next? && caller != NULL {
                if caller == m {
                  caller := NULL;
                }
                continue;
              }
              var mark := Search(m);
              if mark == null && w.proc(m) != 0 {
                return Found(w.proc(m));
              }
            }
          }
        }
      }
      answer := Failed(ProcNotFound);
    }
  }
}

/**
 The repository's own plugin: how many tasks `run_plugin` finds failing, and what loading and unloading the
 library does to the process's thread-local keys.
 */
module Plugin {
  import opened Basics
  import opened EvenShare
  import Bulk

  // ---------------------------------------------------------------- run_plugin

  function Odds(begin: nat, end: nat): nat
    decreases end - begin
  {
    if begin >= end then 0 else begin % 2 + Odds(begin + 1, end)
  }

  lemma {:induction false} OddsHalf(begin: nat, end: nat)
    requires begin <= end
    ensures Odds(begin, end) == end / 2 - begin / 2
    decreases end - begin
  {
    if begin < end { OddsHalf(begin + 1, end); }
  }

  // One agent's share of the bulk: `do_work` throws for odd ids, and the body counts what it catches.
  method RunShare(begin: nat, end: nat) returns (failures: nat)
    requires begin <= end
    ensures failures == end / 2 - begin / 2
  {
    failures := 0;
    for idx := begin to end
      invariant failures == idx / 2 - begin / 2
    {
      if idx % 2 != 0 {
        failures := failures + 1;
      }
    }
  }

  // What the calls of a finished bulk operation add to `failure_count`, whatever their order.
  function Failures(calls: seq<nat>, shape: nat, n: nat): nat
    requires n > 0
  {
    if calls == [] then 0
    else Odds(Share(shape, calls[0], n).0, Share(shape, calls[0], n).1) + Failures(calls[1..], shape, n)
  }

  lemma {:induction false} FailuresWithout(calls: seq<nat>, i: nat, shape: nat, n: nat)
    requires n > 0 && i < |calls|
    ensures Failures(calls, shape, n) ==
            Odds(Share(shape, calls[i], n).0, Share(shape, calls[i], n).1)
            + Failures(calls[..i] + calls[i + 1..], shape, n)
  {
    if i == 0 {
      assert calls[..0] + calls[1..] == calls[1..];
    } else {
      FailuresWithout(calls[1..], i - 1, shape, n);
      assert (calls[..i] + calls[i + 1..])[1..] == calls[1..][..i - 1] + calls[1..][i..];
    }
  }

  lemma Distinctly(calls: seq<nat>, i: nat, m: nat)
    requires i < |calls| && calls[i] == m
    requires Distinct(calls)
    requires forall r :: r in calls <==> 0 <= r < m + 1
    ensures var rest := calls[..i] + calls[i + 1..];
      && Distinct(rest)
      && (forall r :: r in rest <==> 0 <= r < m)
  {
    var rest := calls[..i] + calls[i + 1..];
    forall r ensures r in rest <==> 0 <= r < m {
      if r in rest {
        var k :| 0 <= k < |rest| && rest[k] == r;
        var k' := if k < i then k else k + 1;
        assert rest[k] == calls[k'] && calls[k'] in calls;
        assert if k' < i then calls[k'] != calls[i] else calls[i] != calls[k'];
      }
      if 0 <= r < m {
        assert r in calls;
        var k :| 0 <= k < |calls| && calls[k] == r;
        assert rest[if k < i then k else k - 1] == r;
      }
    }
  }

  lemma {:induction false} FailuresOfAll(calls: seq<nat>, m: nat, shape: nat, n: nat)
    requires 0 < n < TWO64 && m <= n && shape < TWO64
    requires Distinct(calls)
    requires forall r :: r in calls <==> 0 <= r < m
    ensures Failures(calls, shape, n) == Begin(shape, m, n) / 2
    decreases m
  {
    assert calls != [] ==> calls[0] in calls;
    if m == 0 {
      BeginBounds(shape, m, n);
    } else {
      assert m - 1 in calls;
      var i :| 0 <= i < |calls| && calls[i] == m - 1;
      FailuresWithout(calls, i, shape, n);
      Distinctly(calls, i, m - 1);
      FailuresOfAll(calls[..i] + calls[i + 1..], m - 1, shape, n);
      OddsInShare(m - 1, shape, n);
    }
  }

  lemma OddsInShare(r: nat, shape: nat, n: nat)
    requires r < n < TWO64 && shape < TWO64
    ensures Odds(Share(shape, r, n).0, Share(shape, r, n).1) == Begin(shape, r + 1, n) / 2 - Begin(shape, r, n) / 2
  {
    ShareIsExact(shape, r, n);
    BeginMonotone(shape, r, r + 1, n);
    OddsHalf(Begin(shape, r, n), Begin(shape, r + 1, n));
  }

  /** End to end: when the bulk operation of `run_plugin(task_count)` completes, however the pool's
      workers shared and stole its agents, `failure_count` is `task_count / 2`. */
  lemma FailureCount(run: seq<Bulk.State>, acts: seq<Bulk.Action>, i: nat, taskCount: nat)
    requires taskCount < 0x8000_0000 && Bulk.IsRun(run, acts) && i < |run| && run[i].completions != []
    requires run[0].shape == taskCount
    ensures CountedFailures(run[i]) == taskCount / 2
    ensures ExitCode(CountedFailures(run[i])) == if taskCount >= 2 then 1 else 0
  {
    Bulk.RunInv(run, acts, i);
    Bulk.CompletesOnce(run, acts, i);
    var s := run[i];
    forall r ensures r in s.calls <==> 0 <= r < |s.tasks| {
      if 0 <= r < |s.tasks| { assert Bulk.TaskOk(s, r); }
    }
    if s.tasks != [] {
      FailuresOfAll(s.calls, |s.tasks|, taskCount, |s.tasks|);
      BeginBounds(taskCount, |s.tasks|, |s.tasks|);
    }
  }

  function CountedFailures(s: Bulk.State): nat {
    if s.tasks == [] then 0 else Failures(s.calls, s.shape, |s.tasks|)
  }

  function ExitCode(failures: nat): int { if failures > 0 then 1 else 0 }

  // ---------------------------------------------------------------- the key table of the process

  lemma {:induction false} Pigeons(live: set<nat>, limit: nat)
    requires forall k | 0 <= k < limit :: k in live
    ensures |live| >= limit
  {
    if limit > 0 {
      Pigeons(live - {limit - 1}, limit - 1);
    }
  }

  // How many of `n` requests are beyond the room, ...
  function Beyond(n: nat, room: nat): nat { if n > room then n - room else 0 }

  // ... and over all cycles.
  function AllBeyond(requests: seq<nat>, room: nat): nat {
    if requests == [] then 0
    else AllBeyond(requests[..|requests| - 1], room) + Beyond(requests[|requests| - 1], room)
  }

  lemma NextBeyond(requests: seq<nat>, c: nat, room: nat)
    requires c < |requests|
    ensures AllBeyond(requests[..c + 1], room) == AllBeyond(requests[..c], room) + Beyond(requests[c], room)
  {
    assert requests[..c + 1][..c] == requests[..c];
  }

  lemma {:induction false} NoneBeyond(requests: seq<nat>, room: nat)
    ensures AllBeyond(requests, room) == 0 <==> forall c | 0 <= c < |requests| :: requests[c] <= room
  {
    if requests != [] { NoneBeyond(requests[..|requests| - 1], room); }
  }

  class KeyTable {
    var live: set<nat>
    const limit: nat

    ghost predicate Valid()
      reads this
    {
      (forall k | k in live :: k < limit) && |live| <= limit
    }

    constructor (limit: nat)
      ensures Valid() && live == {} && this.limit == limit
    {
      this.limit := limit;
      live := {};
    }

    // `pthread_key_create`: a free index, or an error when there is none.
    method Create() returns (ret: int, key: nat)
      requires Valid()
      modifies this
      ensures Valid()
      ensures ret == 0 <==> |old(live)| < limit
      ensures ret == 0 ==> key !in old(live) && live == old(live) + {key}
      ensures ret != 0 ==> live == old(live)
    {
      key := 0;
      while key < limit && key in live
        invariant key <= limit && forall k | 0 <= k < key :: k in live
      {
        key := key + 1;
      }
      if key == limit {
        Pigeons(live, limit);
        ret := 11;
      } else {
        ret := 0;
        live := live + {key};
        Room(live, limit);
      }
    }

    method Delete(key: nat)
      requires Valid()
      modifies this
      ensures Valid() && live == old(live) - {key}
    {
      live := live - {key};
    }
  }

  lemma {:induction false} Room(live: set<nat>, limit: nat)
    requires forall k | k in live :: k < limit
    ensures |live| <= limit
    decreases limit
  {
    if limit == 0 {
      assert live == {};
    } else {
      Room(live - {limit - 1}, limit - 1);
    }
  }

  lemma Reused(live: set<nat>, mine: nat, foreign: nat)
    requires mine !in live && foreign !in live
    ensures live + {foreign} - {mine} == live + ({foreign} - {mine})
  {}

  // ---------------------------------------------------------------- the plugin's registry of keys

  // `own` are the live keys this load of the plugin created; the key table may hold others.
  class Registry {
    var tracked: seq<nat>
    ghost var own: set<nat>
    const keys: KeyTable

    ghost predicate Valid()
      reads this, keys
    {
      keys.Valid() && own <= keys.live && forall k | k in own :: k in tracked
    }

    constructor (keys: KeyTable)
      requires keys.Valid()
      ensures Valid() && tracked == [] && own == {} && this.keys == keys
    {
      this.keys := keys;
      tracked, own := [], {};
    }

    // `plugin_init`. Keys created by the library before it runs are forgotten here.
    method Init()
      requires Valid()
      modifies this
      ensures Valid() && tracked == [] && own == {}
    {
      tracked, own := [], {};
    }

    // `__wrap_pthread_key_create`
    method WrapCreate() returns (ret: int, key: nat)
      requires Valid()
      modifies this, keys
      ensures Valid()
      ensures ret == 0 <==> |old(keys.live)| < keys.limit
      ensures ret == 0 ==> key !in old(keys.live) && keys.live == old(keys.live) + {key}
      ensures ret == 0 ==> tracked == old(tracked) + [key] && own == old(own) + {key}
      ensures ret != 0 ==> tracked == old(tracked) && own == old(own) && keys.live == old(keys.live)
    {
      ret, key := keys.Create();
      if ret == 0 {
        tracked := tracked + [key];
        own := own + {key};
      }
    }

    // `plugin_fini`. What goes is every tracked key: the library's own, and any key that was deleted behind
    // the registry's back and has since been issued to somebody else.
    method Fini()
      requires Valid()
      modifies this, keys
      ensures Valid() && tracked == [] && own == {}
      ensures keys.live == old(keys.live) - (set k | k in old(tracked))
      ensures keys.live == old(keys.live - own) <==>
                forall k | k in old(tracked) && k in old(keys.live) :: k in old(own)
    {
      ghost var all := set k | k in tracked;
      for i := 0 to |tracked|
        invariant keys.Valid() && tracked == old(tracked) && own == old(own)
        invariant keys.live == old(keys.live) - (set k | k in tracked[..i])
      {
        keys.Delete(tracked[i]);
        assert tracked[..i + 1] == tracked[..i] + [tracked[i]];
      }
      assert tracked[..|tracked|] == tracked;
      var before := old(keys.live);
      if keys.live == before - own {
        forall k | k in old(tracked) && k in before ensures k in old(own) { assert k !in keys.live; }
      }
      tracked, own := [], {};
    }

    // The library asks for `n` keys while it is loaded; those beyond the room fail.
    method CreateMany(n: nat) returns (failed: nat)
      requires Valid()
      modifies this, keys
      ensures Valid() && old(own) <= own && (own - old(own)) !! old(keys.live)
      ensures keys.live == old(keys.live) + (own - old(own))
      ensures (forall k | k in tracked :: k in own) <== forall k | k in old(tracked) :: k in old(own)
      ensures failed == Beyond(n, keys.limit - |old(keys.live)|) && |keys.live| + failed == |old(keys.live)| + n
    {
      failed := 0;
      for i := 0 to n
        invariant Valid() && old(own) <= own && (own - old(own)) !! old(keys.live)
        invariant keys.live == old(keys.live) + (own - old(own))
        invariant (forall k | k in old(tracked) :: k in old(own)) ==> forall k | k in tracked :: k in own
        invariant failed == Beyond(i, keys.limit - |old(keys.live)|) && |keys.live| + failed == |old(keys.live)| + i
      {
        var ret, key := WrapCreate();
        if ret != 0 {
          failed := failed + 1;
        }
      }
    }

    // One load, use and unload.
    method Cycle(n: nat) returns (failed: nat)
      requires Valid() && own == {}
      modifies this, keys
      ensures Valid() && own == {} && keys.live == old(keys.live)
      ensures failed == Beyond(n, keys.limit - |keys.live|)
    {
      Init();
      failed := CreateMany(n);
      ghost var own', live' := own, keys.live;
      Fini();
      assert keys.live == live' - own';
    }

    // Any number of load, use and unload cycles, `requests[c]` keys in cycle `c`: the live keys are what they were, and
    // no request fails exactly if each cycle's requests fit into the room there was before the first.
    method Cycles(requests: seq<nat>) returns (failed: nat)
      requires Valid() && own == {}
      modifies this, keys
      ensures Valid() && keys.live == old(keys.live)
      ensures failed == AllBeyond(requests, keys.limit - |keys.live|)
      ensures failed == 0 <==> forall c | 0 <= c < |requests| :: requests[c] <= keys.limit - |keys.live|
    {
      failed := 0;
      for c := 0 to |requests|
        invariant Valid() && own == {} && keys.live == old(keys.live)
        invariant failed == AllBeyond(requests[..c], keys.limit - |keys.live|)
      {
        NextBeyond(requests, c, keys.limit - |keys.live|);
        var f := Cycle(requests[c]);
        failed := failed + f;
      }
      assert requests[..|requests|] == requests;
      NoneBeyond(requests, keys.limit - |keys.live|);
    }

    // The library creates a key and deletes it itself, which the registry does not see.
    method UseOnce() returns (mine: nat)
      requires Valid() && own == {} && |keys.live| < keys.limit
      modifies this, keys
      ensures Valid() && keys.live == old(keys.live) && mine !in keys.live
      ensures tracked == [mine] && own == {}
    {
      var ret: int;
      Init();
      ret, mine := WrapCreate();
      keys.Delete(mine);
      own := own - {mine};
    }

    // If another library then asks for a key, unloading takes that away from its holder exactly when the index
    // was reused.
    method Reissue() returns (mine: nat, foreign: nat)
      requires Valid() && own == {} && |keys.live| < keys.limit
      modifies this, keys
      ensures Valid() && mine !in old(keys.live) && foreign !in old(keys.live)
      ensures foreign in keys.live <==> foreign != mine
      ensures keys.live == old(keys.live) + ({foreign} - {mine})
    {
      var ret: int;
      mine := UseOnce();
      ret, foreign := keys.Create();
      ghost var live, gone := keys.live, set k | k in tracked;
      assert gone == {mine};
      Fini();
      assert keys.live == live - gone;
      Reused(old(keys.live), mine, foreign);
    }

    // A cycle in which the library creates `early` keys before `plugin_init` and `later` ones after it:
    // the table is restored exactly when there were no early ones.
    method CycleWithEarly(early: nat, later: nat)
      requires Valid() && own == {} && tracked == []
      requires |keys.live| + early + later <= keys.limit
      modifies this, keys
      ensures Valid() && old(keys.live) <= keys.live && |keys.live| == |old(keys.live)| + early
      ensures keys.live == old(keys.live) <==> early == 0
    {
      var f := CreateMany(early);
      ghost var first := keys.live;
      Init();
      f := CreateMany(later);
      ghost var own', live' := own, keys.live;
      Fini();
      assert keys.live == live' - own' == first;
    }
  }

  // leak.cpp: a key for every call and no deletion. The limit is hit exactly when the room is used up.
  method Leak(keys: KeyTable, calls: nat) returns (failed: nat)
    requires keys.Valid()
    modifies keys
    ensures keys.Valid() && old(keys.live) <= keys.live
    ensures failed > 0 <==> calls > keys.limit - |old(keys.live)|
    ensures failed == Beyond(calls, keys.limit - |old(keys.live)|) && |keys.live| + failed == |old(keys.live)| + calls
  {
    failed := 0;
    for i := 0 to calls
      invariant keys.Valid() && old(keys.live) <= keys.live
      invariant failed == Beyond(i, keys.limit - |old(keys.live)|) && |keys.live| + failed == |old(keys.live)| + i
    {
      var ret, key := keys.Create();
      if ret != 0 {
        failed := failed + 1;
      }
    }
  }
}

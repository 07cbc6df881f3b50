/**
 * Sequential runs of executeMethod calls by several callers that share one cache.
 * Each call is atomic here: calls of different callers interleave only between calls.
 */
module Runs {
  import opened OptimizationLevels
  import opened JavaInt
  import opened Tiering

  /** One executeMethod(id) call made by the caller with index `caller`. */
  datatype Invocation = Invocation(caller: nat, id: MethodID)

  /** Every caller's counters (indexed by caller) and the shared cache. */
  datatype World = World(counters: seq<Counters>, cache: Cache)

  datatype RunOutcome = RunOutcome(world: World, results: seq<ExecutionResult>)

  predicate CallersIn(calls: seq<Invocation>, callers: nat)
  {
    forall i :: 0 <= i < |calls| ==> calls[i].caller < callers
  }

  /** The world after `calls`, in order, and the result of each call. */
  function Run(compiler: CompilationEngine, w: World, calls: seq<Invocation>): (r: RunOutcome)
    requires CallersIn(calls, |w.counters|)
    ensures |r.world.counters| == |w.counters|
    ensures |r.results| == |calls|
    decreases |calls|
  {
    if calls == [] then RunOutcome(w, [])
    else
      var n := |calls| - 1;
      var prev := Run(compiler, w, calls[..n]);
      var c := calls[n].caller;
      var o := Call(compiler, prev.world.counters[c], prev.world.cache, calls[n].id);
      RunOutcome(World(prev.world.counters[c := o.counters], o.cache), prev.results + [o.result])
  }

  /** How many of `calls` are caller `c` calling `id`. */
  function Occurrences(calls: seq<Invocation>, c: nat, id: MethodID): (k: nat)
    ensures k <= |calls|
  {
    if calls == [] then 0
    else Occurrences(calls[..|calls| - 1], c, id) + (if calls[|calls| - 1] == Invocation(c, id) then 1 else 0)
  }

  /**
   * Counts are per caller: caller c's count for id grows by exactly the number of
   * c's own calls of id, whatever the other callers do (as long as it stays below 2^31).
   */
  lemma {:induction false} RunCounts(compiler: CompilationEngine, w: World, calls: seq<Invocation>, c: nat, id: MethodID)
    requires CallersIn(calls, |w.counters|)
    requires c < |w.counters|
    requires CountOf(w.counters[c], id) + Occurrences(calls, c, id) <= INT_MAX
    ensures CountOf(Run(compiler, w, calls).world.counters[c], id) == CountOf(w.counters[c], id) + Occurrences(calls, c, id)
  {
    if calls != [] {
      var n := |calls| - 1;
      assert CallersIn(calls[..n], |w.counters|);
      RunCounts(compiler, w, calls[..n], c, id);
      var prev := Run(compiler, w, calls[..n]);
      var o := Call(compiler, prev.world.counters[calls[n].caller], prev.world.cache, calls[n].id);
      if calls[n].caller == c && calls[n].id != id {
        var before := prev.world.counters[c];
        assert id in o.counters - {calls[n].id} <==> id in before - {calls[n].id};
        if id in before {
          assert (o.counters - {calls[n].id})[id] == (before - {calls[n].id})[id];
        }
      }
    }
  }

  /** A caller that has never called id has no count for it. */
  lemma RunCountsFromZero(compiler: CompilationEngine, callers: nat, calls: seq<Invocation>, c: nat, id: MethodID)
    requires CallersIn(calls, callers)
    requires c < callers
    requires Occurrences(calls, c, id) <= INT_MAX
    ensures var w := World(seq(callers, _ => map[]), map[]);
      CountOf(Run(compiler, w, calls).world.counters[c], id) == Occurrences(calls, c, id)
  {
    RunCounts(compiler, World(seq(callers, _ => map[]), map[]), calls, c, id);
  }

  /** In a sequential run, no method's installed level ever decreases. */
  lemma {:induction false} RunNeverLowersLevel(compiler: CompilationEngine, w: World, calls: seq<Invocation>, x: MethodID)
    requires CallersIn(calls, |w.counters|)
    ensures Rank(LevelOf(Run(compiler, w, calls).world.cache, x)) >= Rank(LevelOf(w.cache, x))
  {
    if calls != [] {
      var n := |calls| - 1;
      assert CallersIn(calls[..n], |w.counters|);
      RunNeverLowersLevel(compiler, w, calls[..n], x);
      var prev := Run(compiler, w, calls[..n]);
      CallNeverLowersLevel(compiler, prev.world.counters[calls[n].caller], prev.world.cache, calls[n].id, x);
    }
  }

  /** Once a method is installed at L2, its entry stays exactly as it is for the rest of the run. */
  lemma {:induction false} RunKeepsL2Entry(compiler: CompilationEngine, w: World, calls: seq<Invocation>, x: MethodID)
    requires CallersIn(calls, |w.counters|)
    requires LevelOf(w.cache, x) == L2
    ensures x in Run(compiler, w, calls).world.cache
    ensures Run(compiler, w, calls).world.cache[x] == w.cache[x]
  {
    if calls != [] {
      var n := |calls| - 1;
      assert CallersIn(calls[..n], |w.counters|);
      RunKeepsL2Entry(compiler, w, calls[..n], x);
      var prev := Run(compiler, w, calls[..n]);
      var o := Call(compiler, prev.world.counters[calls[n].caller], prev.world.cache, calls[n].id);
      if calls[n].id == x {
        L2NeverRecompiled(compiler, prev.world.counters[calls[n].caller], prev.world.cache, x);
      } else {
        assert x in o.cache - {calls[n].id};
        assert (o.cache - {calls[n].id})[x] == (prev.world.cache - {calls[n].id})[x];
      }
    }
  }

  /** `k` calls of `id` by caller 0. */
  function Repeat(id: MethodID, k: nat): (calls: seq<Invocation>)
    ensures |calls| == k
    ensures forall i :: 0 <= i < k ==> calls[i] == Invocation(0, id)
  {
    seq(k, _ => Invocation(0, id))
  }

  /** The cache a lone caller leaves after `k` calls of `id` on an empty cache. */
  function HotCache(compiler: CompilationEngine, id: MethodID, k: nat): Cache
  {
    if k < L1_COMPILATION_THRESHOLD as int then map[]
    else if k < L2_COMPILATION_THRESHOLD as int then map[id := CompiledMethodWithLevel(compiler.compileL1(id), L1)]
    else map[id := CompiledMethodWithLevel(compiler.compileL2(id), L2)]
  }

  /** What the `k`-th call (counting from 1) of that lone caller is handed. */
  function HotResult(compiler: CompilationEngine, id: MethodID, k: nat): ExecutionResult
  {
    if k < L1_COMPILATION_THRESHOLD as int then Interpreted(id)
    else if k < L2_COMPILATION_THRESHOLD as int then Executed(compiler.compileL1(id))
    else Executed(compiler.compileL2(id))
  }

  /** The counters of a lone caller after `k` calls of `id`. */
  function HotCounters(id: MethodID, k: nat): Counters
    requires k <= INT_MAX
  {
    if k == 0 then map[] else map[id := k as int32]
  }

  /** The k-th call of the lone caller, from the state the first k - 1 calls left. */
  lemma HotStep(compiler: CompilationEngine, id: MethodID, k: nat)
    requires 1 <= k <= INT_MAX
    ensures var o := Call(compiler, HotCounters(id, k - 1), HotCache(compiler, id, k - 1), id);
      && o.counters == HotCounters(id, k)
      && o.cache == HotCache(compiler, id, k)
      && o.result == HotResult(compiler, id, k)
  {
  }

  /**
   * One caller, one method, a fresh cache: the first 9_999 calls are interpreted, the
   * 10_000th compiles L1, the 100_000th compiles L2, nothing is compiled in between or
   * after, and every call runs the artifact installed after its own promotion step.
   */
  lemma {:induction false} SingleCallerScenario(compiler: CompilationEngine, id: MethodID, k: nat)
    requires k <= INT_MAX
    ensures var r := Run(compiler, World([map[]], map[]), Repeat(id, k));
      && r.world.counters == [HotCounters(id, k)]
      && r.world.cache == HotCache(compiler, id, k)
      && forall i :: 0 <= i < k ==> r.results[i] == HotResult(compiler, id, i + 1)
  {
    if k > 0 {
      var calls := Repeat(id, k);
      assert calls[..k - 1] == Repeat(id, k - 1);
      SingleCallerScenario(compiler, id, k - 1);
      HotStep(compiler, id, k);
    }
  }
}

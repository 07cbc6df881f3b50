/**
 * The caller objects (SolutionThread) and the cache they share (globalCache),
 * with executeMethod as an imperative method over their fields.
 */
module Solution {
  import opened OptimizationLevels
  import opened JavaInt
  import opened Tiering
  import Runs

  /** The process-wide cache; one instance is handed to every caller. */
  class GlobalCache {
    var entries: Cache

    constructor ()
      ensures entries == map[]
    {
      entries := map[];
    }

    /** `get(id)`: the entry for id, None where Java returns null. */
    method Get(id: MethodID) returns (current: Option<CompiledMethodWithLevel>)
      ensures current.Some? <==> id in entries
      ensures current.Some? ==> current.value == entries[id]
    {
      current := if id in entries then Some(entries[id]) else None;
    }

    /** `put(id, entry)`: replaces id's entry, whatever was there. */
    method Put(id: MethodID, entry: CompiledMethodWithLevel)
      modifies this
      ensures entries == old(entries)[id := entry]
    {
      entries := entries[id := entry];
    }
  }

  class SolutionThread {
    /** This caller's own invocation counts (a HashMap in the source). */
    var counters: Counters
    const globalCache: GlobalCache
    const compiler: CompilationEngine

    constructor (globalCache: GlobalCache, compiler: CompilationEngine)
      ensures this.globalCache == globalCache && this.compiler == compiler
      ensures counters == map[]
    {
      this.globalCache := globalCache;
      this.compiler := compiler;
      counters := map[];
    }

    /**
     * executeMethod(id): count the call, promote the method if its count and installed level
     * call for it, then run the installed artifact or interpret. The new counters, the new
     * cache and the result are those of the value-level Call.
     */
    method ExecuteMethod(id: MethodID) returns (result: ExecutionResult)
      modifies this, globalCache
      ensures var o := Call(compiler, old(counters), old(globalCache.entries), id);
        counters == o.counters && globalCache.entries == o.cache && result == o.result
      ensures Rank(LevelOf(globalCache.entries, id)) >= Rank(LevelOf(old(globalCache.entries), id))
    {
      var count := Bumped(counters, id);
      counters := counters[id := count];
      var current := globalCache.Get(id);
      var currentLevel := if current.Some? then current.value.optimizationLevel else INTERPRETED;

      if count >= L2_COMPILATION_THRESHOLD && IsBetterThan(L2, currentLevel) {
        var entry := CompiledMethodWithLevel(compiler.compileL2(id), L2);
        current := Some(entry);
        globalCache.Put(id, entry);
      } else if count >= L1_COMPILATION_THRESHOLD && IsBetterThan(L1, currentLevel) {
        var entry := CompiledMethodWithLevel(compiler.compileL1(id), L1);
        current := Some(entry);
        globalCache.Put(id, entry);
      }

      if current.Some? {
        return Executed(current.value.compiledMethod);
      }
      return Interpreted(id);
    }
  }

  /**
   * Two callers on one cache: the first calls `id` 100_000 times and installs L2; the
   * second, on its very first call (own count 1), runs that L2 artifact, while the first
   * caller's count is untouched by it.
   */
  method SharedCacheAcrossCallers(compiler: CompilationEngine, id: MethodID)
    returns (hotCount: int32, coldCount: int32, coldResult: ExecutionResult)
    ensures hotCount as int == L2_COMPILATION_THRESHOLD as int
    ensures coldCount == 1
    ensures coldResult == Executed(compiler.compileL2(id))
  {
    var cache := new GlobalCache();
    var hot := new SolutionThread(cache, compiler);
    var cold := new SolutionThread(cache, compiler);
    var i := 0;
    while i < L2_COMPILATION_THRESHOLD as int
      invariant 0 <= i <= L2_COMPILATION_THRESHOLD as int
      invariant hot.globalCache == cache && cold.globalCache == cache && hot.compiler == compiler
      invariant hot.counters == Runs.HotCounters(id, i)
      invariant cold.counters == map[]
      invariant cache.entries == Runs.HotCache(compiler, id, i)
    {
      Runs.HotStep(compiler, id, i + 1);
      var _ := hot.ExecuteMethod(id);
      i := i + 1;
    }
    coldResult := cold.ExecuteMethod(id);
    hotCount := hot.counters[id];
    coldCount := cold.counters[id];
  }
}

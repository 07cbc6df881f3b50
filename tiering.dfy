/**
 * The per-call tiering decision of SolutionThread.executeMethod, stated on values:
 * the invocation counter of one caller, the shared level cache, the promotion rule
 * and the choice between running compiled code and interpreting.
 */
module Tiering {
  import opened OptimizationLevels
  import opened JavaInt

  /** Opaque identity of a method: only equality is used. */
  type MethodID(==)

  /** Opaque artifact produced by the compiler. */
  type CompiledMethod

  datatype Option<T> = None | Some(value: T)

  /** The immutable record CompiledMethodWithLevel. */
  datatype CompiledMethodWithLevel = CompiledMethodWithLevel(compiledMethod: CompiledMethod, optimizationLevel: Level)

  /** The compiler collaborator: two total functions, one per compiled level. */
  datatype CompilationEngine = CompilationEngine(
    compileL1: MethodID -> CompiledMethod,
    compileL2: MethodID -> CompiledMethod)

  /** What the execution engine is asked to do: run an artifact, or interpret the method. */
  datatype ExecutionResult = Executed(compiledMethod: CompiledMethod) | Interpreted(id: MethodID)

  /** One caller's invocation counts. */
  type Counters = map<MethodID, int32>

  /** The process-wide cache of compiled methods. */
  type Cache = map<MethodID, CompiledMethodWithLevel>

  const L1_COMPILATION_THRESHOLD: int32 := 10_000
  const L2_COMPILATION_THRESHOLD: int32 := 100_000

  /** The level installed for `id`; INTERPRETED when the cache has no entry (`get` gives null). */
  function LevelOf(cache: Cache, id: MethodID): Level
  {
    if id in cache then cache[id].optimizationLevel else INTERPRETED
  }

  /** This caller's recorded count for `id`, 0 before its first call. */
  function CountOf(counters: Counters, id: MethodID): int
  {
    if id in counters then counters[id] as int else 0
  }

  /** `counters.merge(id, 1, Integer::sum)`: the count this call records and returns. */
  function Bumped(counters: Counters, id: MethodID): (count: int32)
    ensures id !in counters ==> count == 1
    ensures id in counters && counters[id] as int < INT_MAX ==> count as int == counters[id] as int + 1
    ensures id in counters && counters[id] as int == INT_MAX ==> count as int == INT_MIN
  {
    if id in counters then Sum(counters[id], 1) else 1
  }

  /**
   * The promotion rule: the level to compile at, given the count just recorded and the
   * installed level. L2 is considered first; a level is chosen only when it is better
   * than the installed one.
   */
  function Promotion(count: int32, currentLevel: Level): (target: Option<Level>)
    ensures target == Some(L2) <==> count >= L2_COMPILATION_THRESHOLD && currentLevel != L2
    ensures target == Some(L1) <==>
      L1_COMPILATION_THRESHOLD <= count < L2_COMPILATION_THRESHOLD && currentLevel == INTERPRETED
    ensures target != Some(INTERPRETED)
    ensures target.Some? ==> IsBetterThan(target.value, currentLevel)
    ensures target == None <==>
      count < L1_COMPILATION_THRESHOLD
      || currentLevel == L2
      || (count < L2_COMPILATION_THRESHOLD && currentLevel == L1)
  {
    if count >= L2_COMPILATION_THRESHOLD && IsBetterThan(L2, currentLevel) then Some(L2)
    else if count >= L1_COMPILATION_THRESHOLD && IsBetterThan(L1, currentLevel) then Some(L1)
    else None
  }

  /** The state after one call and what the call did. */
  datatype CallOutcome = CallOutcome(
    counters: Counters,
    cache: Cache,
    compilation: Option<Level>,   // the compiler call made, if any (at most one per call)
    result: ExecutionResult)

  /**
   * One executeMethod(id) call by a caller with `counters`, on the shared `cache`.
   */
  function Call(compiler: CompilationEngine, counters: Counters, cache: Cache, id: MethodID): (o: CallOutcome)
    // the counter: bumped for id, every other id untouched
    ensures id in o.counters && o.counters[id] == Bumped(counters, id)
    ensures o.counters - {id} == counters - {id}
    // the compilation made is exactly the one the promotion rule asks for
    ensures o.compilation == Promotion(Bumped(counters, id), LevelOf(cache, id))
    // the cache: only id's entry can change, and only by a compilation that beats the installed level
    ensures o.cache - {id} == cache - {id}
    ensures o.compilation.None? ==> o.cache == cache
    ensures o.compilation.Some? ==> IsBetterThan(o.compilation.value, LevelOf(cache, id))
    ensures o.compilation == Some(L2) ==> o.cache == cache[id := CompiledMethodWithLevel(compiler.compileL2(id), L2)]
    ensures o.compilation == Some(L1) ==> o.cache == cache[id := CompiledMethodWithLevel(compiler.compileL1(id), L1)]
    ensures Rank(LevelOf(o.cache, id)) >= Rank(LevelOf(cache, id))
    // the final choice: the installed artifact if there is one, interpretation otherwise
    ensures id in o.cache ==> o.result == Executed(o.cache[id].compiledMethod)
    ensures id !in o.cache ==> o.result == Interpreted(id)
  {
    var count := Bumped(counters, id);
    var target := Promotion(count, LevelOf(cache, id));
    var newCache :=
      match target
      case Some(L2) => cache[id := CompiledMethodWithLevel(compiler.compileL2(id), L2)]
      case Some(_) => cache[id := CompiledMethodWithLevel(compiler.compileL1(id), L1)]
      case None => cache;
    var result := if id in newCache then Executed(newCache[id].compiledMethod) else Interpreted(id);
    CallOutcome(counters[id := count], newCache, target, result)
  }

  /** A cold method with no installed artifact is interpreted and nothing is compiled. */
  lemma ColdCallInterprets(compiler: CompilationEngine, counters: Counters, cache: Cache, id: MethodID)
    requires Bumped(counters, id) < L1_COMPILATION_THRESHOLD
    requires id !in cache
    ensures var o := Call(compiler, counters, cache, id);
      o.compilation == None && o.cache == cache && o.result == Interpreted(id)
  {
  }

  /** From 100_000 calls on, anything below L2 is replaced by a fresh L2 artifact, even from INTERPRETED. */
  lemma HotCallInstallsL2(compiler: CompilationEngine, counters: Counters, cache: Cache, id: MethodID)
    requires Bumped(counters, id) >= L2_COMPILATION_THRESHOLD
    requires LevelOf(cache, id) != L2
    ensures var o := Call(compiler, counters, cache, id);
      && o.compilation == Some(L2)
      && o.cache == cache[id := CompiledMethodWithLevel(compiler.compileL2(id), L2)]
      && o.result == Executed(compiler.compileL2(id))
  {
  }

  /** Between the two thresholds, an interpreted method gets an L1 artifact. */
  lemma WarmCallInstallsL1(compiler: CompilationEngine, counters: Counters, cache: Cache, id: MethodID)
    requires L1_COMPILATION_THRESHOLD <= Bumped(counters, id) < L2_COMPILATION_THRESHOLD
    requires LevelOf(cache, id) == INTERPRETED
    ensures var o := Call(compiler, counters, cache, id);
      && o.compilation == Some(L1)
      && o.cache == cache[id := CompiledMethodWithLevel(compiler.compileL1(id), L1)]
      && o.result == Executed(compiler.compileL1(id))
  {
  }

  /** Below 100_000 calls, a method already at L1 is not compiled again and its L1 artifact runs. */
  lemma WarmCallKeepsL1(compiler: CompilationEngine, counters: Counters, cache: Cache, id: MethodID)
    requires Bumped(counters, id) < L2_COMPILATION_THRESHOLD
    requires LevelOf(cache, id) == L1
    ensures var o := Call(compiler, counters, cache, id);
      && o.compilation == None
      && o.cache == cache
      && o.result == Executed(cache[id].compiledMethod)
  {
  }

  /** A method installed at L2 is never compiled again and keeps its artifact. */
  lemma L2NeverRecompiled(compiler: CompilationEngine, counters: Counters, cache: Cache, id: MethodID)
    requires LevelOf(cache, id) == L2
    ensures var o := Call(compiler, counters, cache, id);
      && o.compilation == None
      && o.cache == cache
      && o.result == Executed(cache[id].compiledMethod)
  {
  }

  /** No call lowers the installed level of any method. */
  lemma CallNeverLowersLevel(compiler: CompilationEngine, counters: Counters, cache: Cache, id: MethodID, x: MethodID)
    ensures Rank(LevelOf(Call(compiler, counters, cache, id).cache, x)) >= Rank(LevelOf(cache, x))
  {
  }

  /** A caller's first call of a method records the count 1. */
  lemma FirstCallCountsOne(compiler: CompilationEngine, counters: Counters, cache: Cache, id: MethodID)
    requires id !in counters
    ensures Call(compiler, counters, cache, id).counters == counters[id := 1]
  {
  }
}

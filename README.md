# jit-balancer: tiered dispatch of SolutionThread.executeMethod

This project models the call dispatcher of the jit-balancer solution. A caller thread
(`SolutionThread`) runs methods through `executeMethod(id)`. Each call:

1. adds one to this caller's own invocation count for the method (a `HashMap` per caller);
2. reads the method's entry in the process-wide cache (`globalCache`), where an entry is a compiled
   artifact and its optimization level;
3. compiles synchronously, inside the call. L2 is compiled when the count has reached 100_000 and L2 is
   better than the installed level. Otherwise L1 is compiled when the count has reached 10_000 and L1 is
   better. The new entry is then written to the cache;
4. runs the installed artifact if there is one, and interprets the method otherwise.

Levels are ordered by rank: INTERPRETED (0) < L1 (1) < L2 (2).

Files and modules:

- `levels.dfy`, module `OptimizationLevels`: the enum, its rank, `isBetterThan`, and the lemmas that it
  is a strict total order.
- `java_int.dfy`, module `JavaInt`: Java's 32-bit `int` and `Integer::sum` with two's-complement wrap-around.
  The counter is a Java `Integer` merged with `Integer::sum`, so it wraps from 2^31 - 1 to -2^31.
- `tiering.dfy`, module `Tiering`: the value-level specification. It holds the data
  (`CompiledMethodWithLevel`, counters, cache), the promotion rule `Promotion`, one call `Call`, and
  lemmas for each case of the rule.
- `runs.dfy`, module `Runs`: sequential runs of calls by several callers that share one cache. It holds
  lemmas on per-caller counts, on level monotonicity, on the stability of an L2 entry, and on the
  single-caller scenario of 10_000 and 100_000 calls.
- `solution_thread.dfy`, module `Solution`: the imperative model. `GlobalCache` is a class whose
  `entries` map is written by `Put`. `SolutionThread` is a class whose `counters` map is updated in place.
  `ExecuteMethod` is proved equal to `Tiering.Call` on the old state.

Collaborators:

- `MethodID` and `CompiledMethod` are opaque types.
- The compiler (`compile_l1`, `compile_l2`) is a `CompilationEngine` value holding two total functions.
- The execution engine's `execute(cm)` and `interpret(id)` are represented by the result constructors
  `Executed(cm)` and `Interpreted(id)`. They record which of the two the call hands over.
- The static `globalCache` is a `GlobalCache` object passed to each `SolutionThread` constructor, so several
  callers can share one instance.

The code has one threshold per level and compiles synchronously in the calling thread. There is no
separate trigger and deadline, no background compilation and no compilation pool. The cache is updated
by a plain `get` followed by a `put`, not by an atomic check-and-install.

## Model

| member | source | states |
|---|---|---|
| OptimizationLevels.Rank | src/main/java/org/nsu/syspro/parprog/solution/SolutionThread.java:41-50 | the rank of a level is at most 2 and is 0 exactly for INTERPRETED |
| OptimizationLevels.RankInjective | src/main/java/org/nsu/syspro/parprog/solution/SolutionThread.java:42-44 | distinct levels have distinct ranks |
| OptimizationLevels.LevelOrder | src/main/java/org/nsu/syspro/parprog/solution/SolutionThread.java:41-54 | L2 is better than L1, which is better than INTERPRETED, and never the other way round |
| OptimizationLevels.IsBetterThanIrreflexive | src/main/java/org/nsu/syspro/parprog/solution/SolutionThread.java:52-54 | no level is better than itself |
| OptimizationLevels.IsBetterThanAsymmetric | src/main/java/org/nsu/syspro/parprog/solution/SolutionThread.java:52-54 | if a is better than b then b is not better than a |
| OptimizationLevels.IsBetterThanTransitive | src/main/java/org/nsu/syspro/parprog/solution/SolutionThread.java:52-54 | better-than is transitive |
| OptimizationLevels.IsBetterThanTotal | src/main/java/org/nsu/syspro/parprog/solution/SolutionThread.java:52-54 | any two distinct levels are comparable |
| OptimizationLevels.NothingBetterThanL2 | src/main/java/org/nsu/syspro/parprog/solution/SolutionThread.java:41-54 | no level is better than L2, and L2 is better than every other level |
| JavaInt.Sum | src/main/java/org/nsu/syspro/parprog/solution/SolutionThread.java:23 | `Integer::sum` is the mathematical sum when it fits in 32 bits, and otherwise that sum shifted by 2^32 (congruent modulo 2^32) |
| JavaInt.WrapCases | src/main/java/org/nsu/syspro/parprog/solution/SolutionThread.java:23 | the remainder-based wrap-around is in range and agrees with the three-way case split on the sum |
| JavaInt.IncrementWrapsAtMax | src/main/java/org/nsu/syspro/parprog/solution/SolutionThread.java:23 | incrementing 2^31 - 1 yields -2^31 |
| Tiering.Bumped | src/main/java/org/nsu/syspro/parprog/solution/SolutionThread.java:23 | the merged count is 1 on a first call and the old count plus one otherwise; at 2^31 - 1 it wraps to -2^31 |
| Tiering.Promotion | src/main/java/org/nsu/syspro/parprog/solution/SolutionThread.java:11-12 | L2 is chosen iff the count is at least 100_000 and the level is not L2. L1 is chosen iff 10_000 <= count < 100_000 and the level is INTERPRETED. Nothing is chosen otherwise. A chosen level is always better than the installed one |
| Tiering.Call | src/main/java/org/nsu/syspro/parprog/solution/SolutionThread.java:22-39 | one call bumps only this id's count and changes only this id's cache entry. It makes exactly the compilation `Promotion` asks for, given the new count and the installed level (`get`, lines 24-25), so at most one and only at a better level. An L2 compilation installs (compile_l2(id), L2) and an L1 compilation installs (compile_l1(id), L1) (the compiler calls at lines 28 and 31). Without a compilation the cache is unchanged. It never lowers the level. It executes the installed entry if one exists after promotion, and interprets otherwise |
| Tiering.WarmCallKeepsL1 | src/main/java/org/nsu/syspro/parprog/solution/SolutionThread.java:27-38 | below 100_000 calls, a method at L1 is not compiled again, the cache is unchanged, and its L1 artifact runs |
| Tiering.ColdCallInterprets | src/main/java/org/nsu/syspro/parprog/solution/SolutionThread.java:27-38 | below 10_000 calls with no cache entry, nothing is compiled, the cache is unchanged, and the method is interpreted |
| Tiering.HotCallInstallsL2 | src/main/java/org/nsu/syspro/parprog/solution/SolutionThread.java:27-29 | at 100_000 calls or more, below L2 (including from INTERPRETED), the entry becomes (compile_l2(id), L2) and that artifact runs |
| Tiering.WarmCallInstallsL1 | src/main/java/org/nsu/syspro/parprog/solution/SolutionThread.java:30-32 | between 10_000 and 100_000 calls, from INTERPRETED, the entry becomes (compile_l1(id), L1) and that artifact runs |
| Tiering.L2NeverRecompiled | src/main/java/org/nsu/syspro/parprog/solution/SolutionThread.java:27-33 | a method already at L2 is not compiled again, the cache is unchanged, and its L2 artifact runs |
| Tiering.CallNeverLowersLevel | src/main/java/org/nsu/syspro/parprog/solution/SolutionThread.java:24-33 | no call lowers the installed level of any method, whether it is the called one or another |
| Tiering.FirstCallCountsOne | src/main/java/org/nsu/syspro/parprog/solution/SolutionThread.java:23 | a caller's first call of a method adds the count 1 and leaves every other count as it was |
| Runs.Run | src/main/java/org/nsu/syspro/parprog/solution/SolutionThread.java:14-15 | a run keeps one counter map per caller and yields one result per call |
| Runs.RunCounts | src/main/java/org/nsu/syspro/parprog/solution/SolutionThread.java:15-23 | a caller's count for a method grows by exactly that caller's own calls of it, whatever other callers do (while below 2^31) |
| Runs.RunCountsFromZero | src/main/java/org/nsu/syspro/parprog/solution/SolutionThread.java:15-23 | from fresh callers, each caller's count for a method equals the number of its own calls of that method |
| Runs.RunNeverLowersLevel | src/main/java/org/nsu/syspro/parprog/solution/SolutionThread.java:14-33 | across any sequential interleaving of callers, no method's installed level ever decreases |
| Runs.RunKeepsL2Entry | src/main/java/org/nsu/syspro/parprog/solution/SolutionThread.java:27-33 | once installed at L2, an entry stays exactly the same under any later sequential calls |
| Runs.HotStep | src/main/java/org/nsu/syspro/parprog/solution/SolutionThread.java:22-38 | the k-th call of a lone caller takes the state after k - 1 calls to the state after k calls and yields the expected result |
| Runs.SingleCallerScenario | src/main/java/org/nsu/syspro/parprog/solution/SolutionThread.java:11-38 | for one caller on an empty cache, calls 1 to 9_999 are interpreted. Call 10_000 installs and runs L1, and calls up to 99_999 run that L1 artifact. From call 100_000 on, the L2 artifact is installed and runs. The count after k calls is k |
| Solution.GlobalCache.constructor | src/main/java/org/nsu/syspro/parprog/solution/SolutionThread.java:14 | the cache starts empty |
| Solution.GlobalCache.Get | src/main/java/org/nsu/syspro/parprog/solution/SolutionThread.java:24 | `get` yields id's entry, and None (null) exactly when there is none |
| Solution.GlobalCache.Put | src/main/java/org/nsu/syspro/parprog/solution/SolutionThread.java:29 | `put` replaces id's entry and leaves the others unchanged |
| Solution.SolutionThread.constructor | src/main/java/org/nsu/syspro/parprog/solution/SolutionThread.java:15-19 | a new caller has no counts and holds the shared cache and the compiler it is given |
| Solution.SolutionThread.ExecuteMethod | src/main/java/org/nsu/syspro/parprog/solution/SolutionThread.java:22-39 | the in-place update of counters and cache and the returned result are exactly those of `Tiering.Call`, and the method's level does not drop |
| Solution.SharedCacheAcrossCallers | src/main/java/org/nsu/syspro/parprog/solution/SolutionThread.java:14-38 | after one caller has called a method 100_000 times, a second caller on the same cache runs the L2 artifact on its first call. Its own count is 1, and the first caller's count stays 100_000 |

## Left out

- Concurrency: `globalCache` is a `ConcurrentHashMap` shared by threads, but here it is a plain sequential map, and each call runs atomically with respect to other callers. The `get` at line 24 and the `put` at lines 29 and 32 are not one atomic step. Under real interleaving, a late L1 `put` can overwrite an L2 entry. `Runs.RunNeverLowersLevel`, `Runs.RunKeepsL2Entry` and `Tiering.CallNeverLowersLevel` therefore hold for sequential runs only, not for threads.
- The `UserThread` superclass, the `Runnable`, thread start-up and `compilationThreadBound` are not part of this model. The logic modelled here does not use them.
- `ExecutionEngine` and `CompilationEngine` internals are not modelled. Compilation is a pair of total, deterministic functions and never fails or is interrupted. Execution and interpretation are represented only by which artifact or method is handed over.
- The compiled artifact is modelled as a value. The model does not capture Java object identity, so two compilations of the same method at the same level give equal artifacts.
- The code has no separate trigger and deadline thresholds, no asynchronous upgrades, no bounded compilation pool, no atomic check-and-install and no tri-state wait outcome, so the model has none either.
- In `Runs`, one `CompilationEngine` serves every caller. In the source, each `SolutionThread` is constructed with its own compiler (line 17), and `Solution.SolutionThread` keeps that. The run lemmas do not depend on which compiler produced an artifact. The single-caller scenario names the artifacts by that one compiler.
- A null `MethodID` is not modelled: `MethodID` values are never null. In the source, a null id would first be counted by `HashMap.merge` (line 23). Then `ConcurrentHashMap.get(null)` would throw a `NullPointerException` (line 24).
- Runs.RunCounts: stated only while the count stays at or below 2^31 - 1. Past that point the count wraps (see `Tiering.Bumped`), so "grows by exactly one per call" no longer holds.
- Runs.SingleCallerScenario: stated for at most 2^31 - 1 calls, the range in which the count equals the number of calls. `Runs.RunKeepsL2Entry` covers what happens after that point.

/** The optimization levels of a method and their order (enum OptimizationLevel). */
module OptimizationLevels {

  /** INTERPRETED is also the level of a method with no compiled artifact. */
  datatype Level = INTERPRETED | L1 | L2

  /** The integer each enum constant is constructed with. */
  function Rank(l: Level): (r: nat)
    ensures r <= 2
    ensures l == INTERPRETED <==> r == 0
  {
    match l
    case INTERPRETED => 0
    case L1 => 1
    case L2 => 2
  }

  /** `l.isBetterThan(other)`: a strict comparison of the two ranks. */
  predicate IsBetterThan(l: Level, other: Level)
  {
    Rank(l) > Rank(other)
  }

  /** The ranks are distinct, so a level is determined by its rank. */
  lemma RankInjective(a: Level, b: Level)
    ensures Rank(a) == Rank(b) ==> a == b
  {
  }

  lemma LevelOrder()
    ensures IsBetterThan(L2, L1) && IsBetterThan(L1, INTERPRETED) && IsBetterThan(L2, INTERPRETED)
    ensures !IsBetterThan(INTERPRETED, L1) && !IsBetterThan(L1, L2) && !IsBetterThan(INTERPRETED, L2)
  {
  }

  /** isBetterThan is a strict total order: irreflexive, asymmetric, transitive and total. */
  lemma IsBetterThanIrreflexive(a: Level)
    ensures !IsBetterThan(a, a)
  {
  }

  lemma IsBetterThanAsymmetric(a: Level, b: Level)
    ensures IsBetterThan(a, b) ==> !IsBetterThan(b, a)
  {
  }

  lemma IsBetterThanTransitive(a: Level, b: Level, c: Level)
    ensures IsBetterThan(a, b) && IsBetterThan(b, c) ==> IsBetterThan(a, c)
  {
  }

  lemma IsBetterThanTotal(a: Level, b: Level)
    ensures a == b || IsBetterThan(a, b) || IsBetterThan(b, a)
  {
  }

  /** L2 is the top level: nothing is better than it. */
  lemma NothingBetterThanL2(a: Level)
    ensures !IsBetterThan(a, L2)
    ensures a != L2 ==> IsBetterThan(L2, a)
  {
  }
}

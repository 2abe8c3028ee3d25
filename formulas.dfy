/**
 * Conjunctions of formulas in KnowRob's formula language. A conjunction is
 * an immutable compound formula over a list of sub-formulas, written with
 * the connective "∧".
 */
module Formulas {

  /**
   * A formula. Formulas other than conjunctions are represented by a named
   * leaf whose inner structure is not part of this model.
   */
  datatype Formula =
    | Predicate(name: string)
    | Conjunction(formulae: seq<Formula>)

  /** The connective symbol of conjunctions: U+2227 LOGICAL AND. */
  const ConjunctionSymbol: string := "\U{2227}"

  /**
   * Truth of a formula under an interpretation that lists the predicates
   * taken to be true: a conjunction holds when every sub-formula holds.
   */
  predicate Holds(phi: Formula, interpretation: set<string>)
  {
    match phi
    case Predicate(p) => p in interpretation
    case Conjunction(fs) => forall k :: 0 <= k < |fs| ==> Holds(fs[k], interpretation)
  }

  /**
   * Builds the conjunction of a list of sub-formulas. The list is kept as
   * the conjunction's operands, and the result holds exactly when all of
   * them hold.
   */
  function MakeConjunction(formulae: seq<Formula>): (phi: Formula)
    ensures phi.Conjunction? && phi.formulae == formulae
    ensures forall i :: Holds(phi, i) <==> (forall k :: 0 <= k < |formulae| ==> Holds(formulae[k], i))
  {
    Conjunction(formulae)
  }

  /** The connective symbol of a conjunction, whatever its sub-formulas. */
  function OperatorSymbol(phi: Formula): (s: string)
    requires phi.Conjunction?
    ensures s == ConjunctionSymbol
    ensures |s| == 1 && s[0] == '\U{2227}'
  {
    ConjunctionSymbol
  }

  /** Conjunctions over different operands share one connective symbol. */
  lemma SymbolIndependentOfOperands(xs: seq<Formula>, ys: seq<Formula>)
    ensures OperatorSymbol(MakeConjunction(xs)) == OperatorSymbol(MakeConjunction(ys))
  {
  }

  /**
   * The conjunction of phi and psi: a conjunction whose operands are phi
   * and psi, which holds exactly when both hold.
   */
  function And(phi: Formula, psi: Formula): (r: Formula)
    ensures r.Conjunction? && phi in r.formulae && psi in r.formulae
    ensures forall i :: Holds(r, i) <==> Holds(phi, i) && Holds(psi, i)
  {
    MakeConjunction([phi, psi])
  }

  /**
   * Structural equality of formulas: equal kinds, and for conjunctions the
   * same number of sub-formulas, pairwise equal in order.
   */
  predicate IsEqual(a: Formula, b: Formula)
    ensures IsEqual(a, b) ==> (a.Conjunction? <==> b.Conjunction?)
    ensures IsEqual(a, b) && a.Predicate? ==> a.name == b.name
    ensures IsEqual(a, b) && a.Conjunction? ==> |a.formulae| == |b.formulae|
  {
    match a
    case Predicate(p) => b.Predicate? && b.name == p
    case Conjunction(xs) =>
      b.Conjunction? && |xs| == |b.formulae| &&
      forall k :: 0 <= k < |xs| ==> IsEqual(xs[k], b.formulae[k])
  }

  /** Structural equality coincides with equality of formulas. */
  lemma {:induction false} IsEqualIsIdentity(a: Formula, b: Formula)
    ensures IsEqual(a, b) <==> a == b
  {
    match a
    case Predicate(p) =>
    case Conjunction(xs) =>
      if b.Conjunction? && |xs| == |b.formulae| {
        var ys := b.formulae;
        forall k | 0 <= k < |xs|
          ensures IsEqual(xs[k], ys[k]) <==> xs[k] == ys[k]
        {
          IsEqualIsIdentity(xs[k], ys[k]);
        }
        if IsEqual(a, b) {
          assert xs == ys;
        }
      }
  }

  /**
   * A conjunction is equal to itself and to any conjunction built from
   * identical sub-formulas.
   */
  lemma ConjunctionEqualityReflexive(xs: seq<Formula>, ys: seq<Formula>)
    requires xs == ys
    ensures IsEqual(MakeConjunction(xs), MakeConjunction(ys))
  {
    IsEqualIsIdentity(MakeConjunction(xs), MakeConjunction(ys));
  }

  /** Formula equality is symmetric and transitive. */
  lemma IsEqualSymmetricTransitive(a: Formula, b: Formula, c: Formula)
    ensures IsEqual(a, b) <==> IsEqual(b, a)
    ensures IsEqual(a, b) && IsEqual(b, c) ==> IsEqual(a, c)
  {
    IsEqualIsIdentity(a, b);
    IsEqualIsIdentity(b, a);
    IsEqualIsIdentity(b, c);
    IsEqualIsIdentity(a, c);
  }
}

/**
 * The modal-operator algebra of KnowRob: modal operators (necessity and
 * possibility of a modality such as knowledge or belief) and modal
 * iterations, the ordered sequences of operators that describe a nested
 * modal context.
 */
module Modalities {

  /**
   * A modality: a named kind of accessibility relation with the axioms it
   * declares and the display glyph of each of its two operators.
   */
  datatype Modality = Modality(
    name: string,
    transitive: bool,
    euclidean: bool,
    necessitySymbol: string,
    possibilitySymbol: string)

  /** The type of a modal operator. */
  datatype ModalOperatorType = Necessity | Possibility

  /**
   * An operator of a modal language, e.g. "K" for knowledge or "B" for
   * belief. Both fields are fixed when the operator is built.
   */
  datatype ModalOperator = ModalOperator(modality: Modality, modalOperatorType: ModalOperatorType)
  {
    /** True if the accessibility relation of this operator's modality is transitive. */
    function IsTransitive(): (r: bool)
      ensures r <==> modality.transitive
    {
      modality.transitive
    }

    /** True if the accessibility relation of this operator's modality is euclidean. */
    function IsEuclidean(): (r: bool)
      ensures r <==> modality.euclidean
    {
      modality.euclidean
    }

    /** The display symbol of this operator, as its modality defines it for the operator's type. */
    function Symbol(): (s: string)
      ensures modalOperatorType == Necessity ==> s == modality.necessitySymbol
      ensures modalOperatorType == Possibility ==> s == modality.possibilitySymbol
    {
      match modalOperatorType
      case Necessity => modality.necessitySymbol
      case Possibility => modality.possibilitySymbol
    }

    /** As a term, a modal operator contains no variable. */
    function IsGround(): (r: bool)
      ensures r
    {
      true
    }

    /** As a term, a modal operator has no sub-terms. */
    function IsAtomic(): (r: bool)
      ensures r
    {
      true
    }

    /** The variables of a modal operator term: always the shared empty set. */
    function Variables(): (vs: set<string>)
      ensures vs == {}
      ensures IsGround() <==> vs == {}
    {
      {}
    }

    /** Term equality: the same modality and the same operator type. */
    function IsEqual(other: ModalOperator): (r: bool)
      ensures r <==> this == other
    {
      modality == other.modality && modalOperatorType == other.modalOperatorType
    }
  }

  /** The accessors give back exactly what the operator was built from. */
  lemma AccessorsReturnConstructorArguments(m: Modality, t: ModalOperatorType)
    ensures ModalOperator(m, t).modality == m
    ensures ModalOperator(m, t).modalOperatorType == t
  {
  }

  /** Transitivity and euclideanness depend on the modality alone, never on the operator type. */
  lemma AxiomsDependOnModalityOnly(a: ModalOperator, b: ModalOperator)
    requires a.modality == b.modality
    ensures a.IsTransitive() <==> b.IsTransitive()
    ensures a.IsEuclidean() <==> b.IsEuclidean()
  {
  }

  /**
   * The symbol is a function of the operator's two fields; and when a
   * modality's two glyphs differ, the symbol tells the operator type apart.
   */
  lemma SymbolDeterminedByFields(a: ModalOperator, b: ModalOperator)
    requires a.modality == b.modality
    ensures a.modalOperatorType == b.modalOperatorType ==> a.Symbol() == b.Symbol()
    ensures a.modality.necessitySymbol != a.modality.possibilitySymbol ==>
              (a.Symbol() == b.Symbol() <==> a.modalOperatorType == b.modalOperatorType)
  {
  }

  /** Element-wise, in-order comparison of two operator sequences. */
  function SameOperators(xs: seq<ModalOperator>, ys: seq<ModalOperator>): (r: bool)
    ensures r ==> |xs| == |ys|
    ensures r && xs != [] ==> xs[0] == ys[0]
  {
    if xs == [] || ys == [] then xs == [] && ys == []
    else xs[0].IsEqual(ys[0]) && SameOperators(xs[1..], ys[1..])
  }

  /** Element-wise comparison is exactly equality of the two sequences. */
  lemma {:induction false} SameOperatorsIsEquality(xs: seq<ModalOperator>, ys: seq<ModalOperator>)
    ensures SameOperators(xs, ys) <==> xs == ys
  {
    if xs != [] && ys != [] {
      SameOperatorsIsEquality(xs[1..], ys[1..]);
      if xs[0] == ys[0] && xs[1..] == ys[1..] {
        assert xs == [xs[0]] + xs[1..] && ys == [ys[0]] + ys[1..];
      }
    }
  }

  /**
   * An iteration over modalities: each operator corresponds to applying
   * the accessibility relation once. The operators are kept in a list in
   * the order they were added; iterator positions run from Begin() to End().
   */
  class ModalIteration {
    var modalitySequence: seq<ModalOperator>

    /** A default-constructed iteration holds no operator. */
    constructor ()
      ensures modalitySequence == []
      ensures NumOperators() == 0
    {
      modalitySequence := [];
    }

    /** An empty iteration. */
    static method EmptyIteration() returns (it: ModalIteration)
      ensures fresh(it)
      ensures it.modalitySequence == [] && it.NumOperators() == 0
    {
      it := new ModalIteration();
    }

    /** The number of operators in this iteration. */
    function NumOperators(): (n: nat)
      reads this
      ensures n == |modalitySequence|
      ensures n == End() - Begin()
    {
      |modalitySequence|
    }

    /** Position of the first operator. */
    function Begin(): (pos: nat)
      reads this
      ensures pos <= |modalitySequence|
      ensures pos == |modalitySequence| <==> modalitySequence == []
    {
      0
    }

    /** Position just past the last operator. */
    function End(): (pos: nat)
      reads this
      ensures Begin() <= pos
      ensures pos - Begin() == |modalitySequence|
    {
      |modalitySequence|
    }

    /** The operator at an iterator position. */
    function Deref(pos: nat): (op: ModalOperator)
      reads this
      requires Begin() <= pos < End()
      ensures op == modalitySequence[pos]
      ensures op in modalitySequence
    {
      modalitySequence[pos]
    }

    /** The operators visited when advancing an iterator from pos up to End(). */
    function OperatorsFrom(pos: nat): seq<ModalOperator>
      reads this
      requires pos <= End()
      decreases End() - pos
    {
      if pos == End() then [] else [Deref(pos)] + OperatorsFrom(pos + 1)
    }

    /**
     * Walking from pos to End() visits the stored operators from pos on,
     * in stored order, and visits End() - pos of them.
     */
    lemma {:induction false} WalkFrom(pos: nat)
      requires pos <= End()
      ensures OperatorsFrom(pos) == modalitySequence[pos..]
      ensures |OperatorsFrom(pos)| == End() - pos
      decreases End() - pos
    {
      if pos < End() {
        WalkFrom(pos + 1);
        assert modalitySequence[pos..] == [modalitySequence[pos]] + modalitySequence[pos + 1..];
      }
    }

    /**
     * Iterating from Begin() to End() enumerates the stored operators in
     * order, and NumOperators() counts exactly the operators enumerated.
     */
    lemma EnumerationInStoredOrder()
      ensures OperatorsFrom(Begin()) == modalitySequence
      ensures NumOperators() == |OperatorsFrom(Begin())|
    {
      WalkFrom(Begin());
    }

    /** Adds an operator at the end; the earlier operators keep their positions. */
    method PushBack(op: ModalOperator)
      modifies this
      ensures modalitySequence == old(modalitySequence) + [op]
      ensures NumOperators() == old(NumOperators()) + 1
      ensures Deref(End() - 1) == op
      ensures forall pos :: Begin() <= pos < old(End()) ==> Deref(pos) == old(modalitySequence)[pos]
    {
      modalitySequence := modalitySequence + [op];
    }

    /** True if this and other are the same iterations: the same operators in the same order. */
    function Equals(other: ModalIteration): (r: bool)
      reads this, other
      ensures r <==> modalitySequence == other.modalitySequence
      ensures r ==> NumOperators() == other.NumOperators()
    {
      SameOperatorsIsEquality(modalitySequence, other.modalitySequence);
      SameOperators(modalitySequence, other.modalitySequence)
    }
  }

  /** Iteration equality is reflexive, symmetric and transitive. */
  lemma EqualsIsEquivalence(a: ModalIteration, b: ModalIteration, c: ModalIteration)
    ensures a.Equals(a)
    ensures a.Equals(b) <==> b.Equals(a)
    ensures a.Equals(b) && b.Equals(c) ==> a.Equals(c)
  {
  }
}

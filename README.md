# KnowRob modal operators and conjunctions in Dafny

This project models two small parts of KnowRob, a knowledge-representation
engine for robots:

- the **modal-operator algebra** (`modalities.dfy`, module `Modalities`), which
  tags answers with an epistemic or doxastic context. A *modality*, such as
  knowledge or belief, is a kind of accessibility relation with its own axioms.
  A *modal operator* is the necessity or possibility operator of one modality.
  A *modal iteration* is the ordered list of operators that describes a nested
  modal context.
- the **conjunction formula** (`formulas.dfy`, module `Formulas`): a compound
  formula over a list of sub-formulas, written with the connective "∧"
  (U+2227), together with the binary `&` operator that builds one.

How the parts are modelled:

- `Modality` is a record. It holds a name, the transitive and euclidean axiom
  flags, and the display glyphs of its two operators. Two records with the
  same name and the same data count as the same modality.
- `ModalOperator` is an immutable datatype value, as in the source, whose two
  fields are `const`.
- `ModalIteration` is a class. Its `seq<ModalOperator>` field stands for the
  `std::list` that `push_back` changes in place.
- Iterator positions run from `Begin()` (0) to `End()` (the length).
  `OperatorsFrom(pos)` is the sequence an iterator visits while it advances
  from `pos` to `End()`.
- `operator==` on iterations is modelled as an element-wise, in-order
  comparison (`SameOperators`). It is proved to be exactly sequence equality.
- Formulas are a datatype with two kinds: conjunctions, and a named leaf that
  stands for every other kind of formula.
- `Holds(phi, interpretation)` gives formulas a truth semantics. It is the
  independent reference against which the conjunction constructors are proved.

## Model

| member | source | states |
|---|---|---|
| `Modalities.AccessorsReturnConstructorArguments` | include/knowrob/modalities/ModalOperator.h:27-37 | `modality` and `modalOperatorType` of an operator built from (m, t) are exactly m and t. These are immutable fields of a value. |
| `Modalities.AxiomsDependOnModalityOnly` | include/knowrob/modalities/ModalOperator.h:39-47 | Two operators with the same modality agree on `IsTransitive` and on `IsEuclidean`, whatever their operator types. |
| `Modalities.SymbolDeterminedByFields` | include/knowrob/modalities/ModalOperator.h:49-52 | Operators with equal (modality, type) fields have the same symbol. If a modality's two glyphs differ, equal symbols mean equal operator types. |
| `Modalities.ModalOperator.IsTransitive` | include/knowrob/modalities/ModalOperator.h:39-42 | An operator is transitive exactly when its modality declares a transitive accessibility relation. |
| `Modalities.ModalOperator.IsEuclidean` | include/knowrob/modalities/ModalOperator.h:44-47 | An operator is euclidean exactly when its modality declares a euclidean accessibility relation. |
| `Modalities.ModalOperator.Symbol` | include/knowrob/modalities/ModalOperator.h:49-52 | A necessity operator shows its modality's necessity glyph, and a possibility operator shows its modality's possibility glyph. |
| `Modalities.ModalOperator.IsGround` | include/knowrob/modalities/ModalOperator.h:55 | Every modal operator is a ground term. |
| `Modalities.ModalOperator.IsAtomic` | include/knowrob/modalities/ModalOperator.h:58 | Every modal operator is an atomic term. |
| `Modalities.ModalOperator.Variables` | include/knowrob/modalities/ModalOperator.h:61 | The variable set of every modal operator is empty, which agrees with it being ground. |
| `Modalities.ModalOperator.IsEqual` | include/knowrob/modalities/ModalOperator.h:67-71 | Two operators are equal as terms exactly when they have the same modality and the same type. |
| `Modalities.SameOperators` | include/knowrob/modalities/ModalOperator.h:82-86 | When the element-wise comparison succeeds, the two sequences have the same length and the same first operator. |
| `Modalities.SameOperatorsIsEquality` | include/knowrob/modalities/ModalOperator.h:82-86 | Element-wise, in-order comparison of two operator sequences holds exactly when the sequences are equal. |
| `Modalities.ModalIteration.constructor` | include/knowrob/modalities/ModalOperator.h:80 | A default-constructed iteration holds no operators, and `NumOperators()` is 0. |
| `Modalities.ModalIteration.EmptyIteration` | include/knowrob/modalities/ModalOperator.h:108-111 | The empty iteration holds no operators, and `NumOperators()` is 0. |
| `Modalities.ModalIteration.NumOperators` | include/knowrob/modalities/ModalOperator.h:88-91 | The count is the length of the stored list, which is also the distance from `Begin()` to `End()`. |
| `Modalities.ModalIteration.Begin` | include/knowrob/modalities/ModalOperator.h:98-101 | The begin position lies within the list, and it equals the end exactly when the list is empty. |
| `Modalities.ModalIteration.End` | include/knowrob/modalities/ModalOperator.h:103-106 | The end position is at or after `Begin()`, and it lies as many steps past it as the list has operators. |
| `Modalities.ModalIteration.Deref` | include/knowrob/modalities/ModalOperator.h:98-114 | Dereferencing a valid position gives the stored operator at that position, which therefore belongs to the iteration. |
| `Modalities.ModalIteration.WalkFrom` | include/knowrob/modalities/ModalOperator.h:98-106 | Advancing an iterator from `pos` to `End()` visits the stored operators from `pos` on, in stored order. It visits `End() - pos` of them. |
| `Modalities.ModalIteration.EnumerationInStoredOrder` | include/knowrob/modalities/ModalOperator.h:91-114 | Iterating from `Begin()` to `End()` enumerates exactly the stored list, in order. `NumOperators()` is the number of operators enumerated. |
| `Modalities.ModalIteration.PushBack` | include/knowrob/modalities/ModalOperator.h:93-96 | The new list is the old list followed by `op`. The count grows by one, the last position holds `op`, and every earlier position keeps its operator. |
| `Modalities.ModalIteration.Equals` | include/knowrob/modalities/ModalOperator.h:82-86 | Two iterations are the same exactly when they hold the same operators in the same order. Equal iterations have equal `NumOperators()`. |
| `Modalities.EqualsIsEquivalence` | include/knowrob/modalities/ModalOperator.h:82-86 | Iteration equality is reflexive, symmetric and transitive. |
| `Formulas.MakeConjunction` | include/knowrob/formulas/Conjunction.h:19-22 | The constructor keeps the given list as the conjunction's operands. The conjunction holds under an interpretation exactly when every operand holds. |
| `Formulas.OperatorSymbol` | include/knowrob/formulas/Conjunction.h:25 | The connective symbol of every conjunction is U+2227, as one Unicode character rather than its encoded bytes. |
| `Formulas.SymbolIndependentOfOperands` | include/knowrob/formulas/Conjunction.h:25 | Conjunctions over any two operand lists have the same connective symbol. |
| `Formulas.And` | include/knowrob/formulas/Conjunction.h:31-37 | `phi & psi` is a conjunction whose operands include both `phi` and `psi`. It holds exactly when both hold. |
| `Formulas.IsEqual` | include/knowrob/formulas/Conjunction.h:28 | Equal formulas are of the same kind. Equal leaves have the same name, and equal conjunctions have the same number of sub-formulas. |
| `Formulas.IsEqualIsIdentity` | include/knowrob/formulas/Conjunction.h:28 | Structural equality holds exactly when two formulas are identical. For conjunctions that means the same number of sub-formulas, pairwise equal in order. |
| `Formulas.ConjunctionEqualityReflexive` | include/knowrob/formulas/Conjunction.h:22-28 | A conjunction is equal to itself and to any conjunction built from identical sub-formulas. |
| `Formulas.IsEqualSymmetricTransitive` | include/knowrob/formulas/Conjunction.h:28 | Formula equality is symmetric and transitive. |

## Left out

- Axiom-driven collapsing of adjacent operators in `push_back` is not modelled. Modal logic would let some adjacent operators merge, for example repeated necessity over a transitive and reflexive relation. The header at include/knowrob/modalities/ModalOperator.h:93-96 says only that `push_back` adds an operator, and its implementation file is not part of this model. `PushBack` is therefore the plain append.
- `ModalOperator::write`, which is stream output, is not modelled.
- The concrete glyph strings of `symbol()` are not modelled. Each `Modality` carries its two glyphs as data, because `Modality.h` is not part of this model.
- The reflexive axiom flag and the rest of the `Modality` class are not modelled, because `Modality.h` is not part of this model.
- Iterator stability is not modelled. Positions are list indices, not `std::list` node iterators. In the source, `push_back` invalidates no iterator and a saved `end()` stays the end. In the model, a saved `End()` stops being the end after `PushBack` and then dereferences to the new operator.
- `Formulas.OperatorSymbol`: returns the symbol as one Unicode character, U+2227. The source returns a narrow C string literal, whose bytes are the execution-charset encoding of that character (three bytes, E2 88 A7, under UTF-8). Byte encoding is not modelled.
- `Modalities.ModalIteration.EmptyIteration`: returns a fresh empty iteration. It does not model that the source hands back one shared static instance on every call.
- Pointer identity of modalities is not modelled. Two `Modality` records with the same name and data count as the same modality.
- The `Term` and `Formula` base classes, and the other formula kinds, are not modelled. Other formulas appear only as named leaves, and variables of other terms are plain strings.
- `Formulas.And`: modelled as the binary conjunction `[phi, psi]`. The implementation file is not part of this model, so any flattening of nested conjunctions it might do is not captured.
- `Formulas.IsEqual`: modelled as ordered, element-wise structural comparison. The body of `Conjunction::isEqual` is not part of this model.
- The MongoDB-backed knowledge graph and its exception wrapper are not modelled: they are I/O over a foreign database library.
- The ROS action-server glue and the `main` entry point are not modelled: they are process glue.
- The hybrid question-answering entry point is not modelled: it is concurrency and configuration glue.
- Blackboard segments and reasoners are not modelled: they are thread-based processes behind a pure interface.
- The Mongolog reasoner is not modelled: it builds on a Prolog engine whose code is not part of this model.

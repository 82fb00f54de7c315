/**
  The index descriptor `OIndexInternal.IndexMetadata`: a record of six
  `final` fields whose `equals` compares five of them (never
  `valueContainerAlgorithm`) and whose `hashCode` folds the same five with the
  multiplier 31 in Java `int` arithmetic.

  The record is a datatype, so the constructor is the datatype constructor
  and the getters are its destructors.  A datatype value is a snapshot: the
  source keeps and hands out the caller's own set and definition objects,
  which can still be mutated afterwards.
  The index definition (`OIndexDefinition`) is a type parameter `D`.  The
  library and foreign calls the two methods make (`String.hashCode`,
  `Set.hashCode`, `OIndexDefinition.equals` and `OIndexDefinition.hashCode`)
  are parameters bundled in `Collaborators`; `String.equals` and `Set.equals`
  compare contents, which is Dafny's own `==` on `string` and `set<string>`.
*/
module IndexInternal {
  import opened JavaInt
  import opened Wrappers

  /**
    `name`, `clustersToIndex` and `type` are dereferenced unconditionally by
    `equals` and `hashCode`, so they are not nullable here; the other three
    fields may be `null` (`None`).
  */
  datatype IndexMetadata<D> = IndexMetadata(
    name: string,
    indexDefinition: Option<D>,
    clustersToIndex: set<string>,
    indexType: string,
    algorithm: Option<string>,
    valueContainerAlgorithm: Option<string>)

  /** The argument of `equals(Object)`: `null`, an object of another class, or an `IndexMetadata`. */
  datatype JavaObject<D> = Null | OtherClass | Metadata(meta: IndexMetadata<D>)

  /** The calls `equals` and `hashCode` make into code outside this model. */
  datatype Collaborators<!D> = Collaborators(
    stringHash: string -> int32,
    setHash: set<string> -> int32,
    definitionEquals: (D, D) -> bool,
    definitionHash: D -> int32)

  /** `OIndexDefinition.equals` is an equivalence relation, as `Object.equals` requires. */
  ghost predicate DefinitionEqualsIsEquivalence<D(!new)>(c: Collaborators<D>) {
    && (forall x :: c.definitionEquals(x, x))
    && (forall x, y :: c.definitionEquals(x, y) ==> c.definitionEquals(y, x))
    && (forall x, y, z :: c.definitionEquals(x, y) && c.definitionEquals(y, z) ==> c.definitionEquals(x, z))
  }

  /** Equal definitions have equal `OIndexDefinition.hashCode`, as `Object.hashCode` requires. */
  ghost predicate DefinitionHashAgrees<D(!new)>(c: Collaborators<D>) {
    forall x, y :: c.definitionEquals(x, y) ==> c.definitionHash(x) == c.definitionHash(y)
  }

  /**
    The null-aware comparison of the definitions: two nulls are equal, a null
    equals no definition, and two definitions are compared by their own
    `equals` (which, as `Object.equals` requires, is false against `null`).
  */
  predicate DefinitionsEqual<D>(c: Collaborators<D>, a: Option<D>, b: Option<D>) {
    match a
    case None => b.None?
    case Some(x) => b.Some? && c.definitionEquals(x, b.value)
  }

  /** The five fields `equals` compares agree, each with the comparison `equals` uses. */
  predicate SameComparedFields<D>(c: Collaborators<D>, a: IndexMetadata<D>, b: IndexMetadata<D>) {
    && a.name == b.name
    && a.indexType == b.indexType
    && a.clustersToIndex == b.clustersToIndex
    && a.algorithm == b.algorithm
    && DefinitionsEqual(c, a.indexDefinition, b.indexDefinition)
  }

  /**
    `m.equals(o)`.  The reference-identity shortcut `this == o` is read as
    equality of the two values, which is what it implies.
  */
  function Equals<D(==)>(c: Collaborators<D>, m: IndexMetadata<D>, o: JavaObject<D>): (r: bool)
    ensures !o.Metadata? ==> !r
    ensures r ==> o.meta.name == m.name && o.meta.indexType == m.indexType
    ensures r ==> o.meta.clustersToIndex == m.clustersToIndex && o.meta.algorithm == m.algorithm
    ensures o == Metadata(m) ==> r
  {
    match o
    case Null => false
    case OtherClass => false
    case Metadata(that) =>
      if m == that then true
      // a null algorithm is equal only to a null algorithm
      else if m.algorithm != that.algorithm then false
      else if m.clustersToIndex != that.clustersToIndex then false
      else if !DefinitionsEqual(c, m.indexDefinition, that.indexDefinition) then false
      else if m.name != that.name then false
      else if m.indexType != that.indexType then false
      else true
  }

  /** A nullable field's contribution to the hash: its own hash, or 0 for `null`. */
  function NullableHash<T>(h: T -> int32, v: Option<T>): int32 {
    match v
    case None => 0
    case Some(x) => h(x)
  }

  /**
    The hashes of the five compared fields, in the order `hashCode` folds
    them; a null definition or algorithm contributes 0.
  */
  function FieldHashes<D>(c: Collaborators<D>, m: IndexMetadata<D>): seq<int32> {
    [ c.stringHash(m.name),
      NullableHash(c.definitionHash, m.indexDefinition),
      c.setHash(m.clustersToIndex),
      c.stringHash(m.indexType),
      NullableHash(c.stringHash, m.algorithm) ]
  }

  /** `m.hashCode()`: `result = 31 * result + ...` over the field hashes, each step a Java `int` operation. */
  function HashCode<D>(c: Collaborators<D>, m: IndexMetadata<D>): (h: int32)
    ensures h == Wrap(ExactFold(FieldHashes(c, m)))
  {
    HashFoldWrapsExactFold(FieldHashes(c, m));
    HashFold(FieldHashes(c, m))
  }

  // ---------------------------------------------------------------------------
  // equals

  /** `equals` holds exactly when the five compared fields agree; `valueContainerAlgorithm` plays no part. */
  lemma EqualsIff<D(!new)>(c: Collaborators<D>, a: IndexMetadata<D>, b: IndexMetadata<D>)
    requires DefinitionEqualsIsEquivalence(c)
    ensures Equals(c, a, Metadata(b)) <==> SameComparedFields(c, a, b)
  {
    if a == b && a.indexDefinition.Some? {
      assert c.definitionEquals(a.indexDefinition.value, a.indexDefinition.value);
    }
  }

  /** Two descriptors that differ only in `valueContainerAlgorithm` are equal. */
  lemma EqualsIgnoresValueContainerAlgorithm<D(!new)>(
    c: Collaborators<D>, m: IndexMetadata<D>, valueContainerAlgorithm: Option<string>)
    requires DefinitionEqualsIsEquivalence(c)
    ensures Equals(c, m, Metadata(m.(valueContainerAlgorithm := valueContainerAlgorithm)))
  {
    EqualsIff(c, m, m.(valueContainerAlgorithm := valueContainerAlgorithm));
  }

  /** `equals` is reflexive (through the identity shortcut) and false against `null` and other classes. */
  lemma EqualsReflexiveAndNullSafe<D>(c: Collaborators<D>, m: IndexMetadata<D>)
    ensures Equals(c, m, Metadata(m))
    ensures !Equals(c, m, Null) && !Equals(c, m, OtherClass)
  {
  }

  /** `equals` is symmetric. */
  lemma EqualsSymmetric<D(!new)>(c: Collaborators<D>, a: IndexMetadata<D>, b: IndexMetadata<D>)
    requires DefinitionEqualsIsEquivalence(c)
    ensures Equals(c, a, Metadata(b)) ==> Equals(c, b, Metadata(a))
  {
    EqualsIff(c, a, b);
    EqualsIff(c, b, a);
  }

  /** `equals` is transitive. */
  lemma EqualsTransitive<D(!new)>(c: Collaborators<D>, a: IndexMetadata<D>, b: IndexMetadata<D>, d: IndexMetadata<D>)
    requires DefinitionEqualsIsEquivalence(c)
    requires Equals(c, a, Metadata(b)) && Equals(c, b, Metadata(d))
    ensures Equals(c, a, Metadata(d))
  {
    EqualsIff(c, a, b);
    EqualsIff(c, b, d);
    EqualsIff(c, a, d);
  }

  // ---------------------------------------------------------------------------
  // hashCode

  /**
    The step-by-step fold equals the polynomial
    `31^4 h(name) + 31^3 h(definition) + 31^2 h(clusters) + 31 h(type) + h(algorithm)`
    reduced to a Java `int` once, a null definition or algorithm counting 0.
  */
  lemma HashCodeIsPolynomial<D>(c: Collaborators<D>, m: IndexMetadata<D>)
    ensures HashCode(c, m) == Wrap(
      923521 * c.stringHash(m.name) as int
      + 29791 * NullableHash(c.definitionHash, m.indexDefinition) as int
      + 961 * c.setHash(m.clustersToIndex) as int
      + 31 * c.stringHash(m.indexType) as int
      + NullableHash(c.stringHash, m.algorithm) as int)
  {
    HashFoldOfFive(
      c.stringHash(m.name),
      NullableHash(c.definitionHash, m.indexDefinition),
      c.setHash(m.clustersToIndex),
      c.stringHash(m.indexType),
      NullableHash(c.stringHash, m.algorithm));
  }

  /** Equal descriptors have equal hash codes. */
  lemma HashCodeAgreesWithEquals<D(!new)>(c: Collaborators<D>, a: IndexMetadata<D>, b: IndexMetadata<D>)
    requires DefinitionHashAgrees(c)
    requires Equals(c, a, Metadata(b))
    ensures HashCode(c, a) == HashCode(c, b)
  {
    if a != b && a.indexDefinition.Some? {
      assert c.definitionHash(a.indexDefinition.value) == c.definitionHash(b.indexDefinition.value);
    }
  }

  /** `valueContainerAlgorithm` does not enter the hash code either. */
  lemma HashCodeIgnoresValueContainerAlgorithm<D>(
    c: Collaborators<D>, m: IndexMetadata<D>, valueContainerAlgorithm: Option<string>)
    ensures HashCode(c, m.(valueContainerAlgorithm := valueContainerAlgorithm)) == HashCode(c, m)
  {
  }
}

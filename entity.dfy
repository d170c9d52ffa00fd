/**
 * An entity: an attribute (span and bag) with an entity id, a coreference
 * chain id (-1 when not part of a chain) and a confidence. The record is
 * immutable and compared structurally; it is made through a mutable builder.
 */
module Entities {
  import opened Values

  const TwoTo52: nat := 0x10_0000_0000_0000
  const TwoTo64: nat := 0x1_0000_0000_0000_0000

  /** The one NaN pattern Double.doubleToLongBits yields for every NaN. */
  const CanonicalNaN: nat := 0x7ff8_0000_0000_0000

  /** A 64-bit pattern is a NaN when its exponent bits are all ones and its fraction is not zero. */
  predicate IsNaNBits(n: nat) {
    (n / TwoTo52) % 0x800 == 0x7ff && n % TwoTo52 != 0
  }

  /** The 64-bit patterns Double.doubleToLongBits can return: every one but the non-canonical NaNs. */
  type CanonicalBits = n: nat | n < TwoTo64 && (IsNaNBits(n) ==> n == CanonicalNaN)

  /**
   * A confidence as Double.compare sees it: its canonical bit pattern
   * (Double.doubleToLongBits), so that every NaN is one value and +0.0 and
   * -0.0 are two. Its numeric meaning is not modelled.
   */
  datatype Confidence = Confidence(canonicalBits: CanonicalBits)

  /** The bit pattern of 0.0, the default of a Java double field. */
  const ZeroConfidence: Confidence := Confidence(0)

  const NoChain: int := -1

  /** The argument of equals: null, this very object, another Entity object, or an object of another class. */
  datatype ObjectRef = NullRef | SameInstance | OtherEntity(other: Entity) | OtherClass

  /** An entity: the attribute it extends (span and bag) and its own three fields. */
  datatype Entity = Entity(
    attribute: Attribute,
    entityId: Option<string>,
    coreferenceChainId: int,
    confidence: Confidence)
  {
    /** The inherited attribute comparison: span and bag. */
    predicate SameAttribute(that: Entity) {
      attribute == that.attribute
    }

    /**
     * equals(o). None is the NullPointerException raised when this entity's
     * id is null and the attribute parts agree.
     */
    function Equals(o: ObjectRef): (r: Option<bool>)
      ensures o.SameInstance? ==> r == Some(true)
      ensures o.NullRef? || o.OtherClass? ==> r == Some(false)
      ensures o.OtherEntity? && !SameAttribute(o.other) ==> r == Some(false)
      ensures r.None? <==> o.OtherEntity? && entityId.None? && SameAttribute(o.other)
      ensures o.OtherEntity? && entityId.Some? ==> (r == Some(true) <==> o.other == this)
    {
      match o
      case SameInstance => Some(true)
      case NullRef => Some(false)
      case OtherClass => Some(false)
      case OtherEntity(that) =>
        if !SameAttribute(that) then Some(false)
        else if entityId.None? then None
        else Some(entityId == that.entityId && confidence == that.confidence &&
                  coreferenceChainId == that.coreferenceChainId)
    }
  }

  /** Entity(startOffset, endOffset, entityId, coreferenceChainId, confidence): no extended properties. */
  function WithoutProperties(startOffset: int, endOffset: int, entityId: Option<string>,
                             coreferenceChainId: int, confidence: Confidence): (e: Entity)
    ensures e.attribute.extendedProperties == map[]
    ensures e.attribute.startOffset == startOffset && e.attribute.endOffset == endOffset
    ensures e.entityId == entityId && e.coreferenceChainId == coreferenceChainId && e.confidence == confidence
  {
    Entity(Attribute(startOffset, endOffset, map[]), entityId, coreferenceChainId, confidence)
  }

  /**
   * The protected no-argument constructor: null id, confidence 0.0, no chain.
   * The span and bag come from the base class's no-argument constructor,
   * taken here as offsets 0 and an empty bag.
   */
  function Blank(): (e: Entity)
    ensures e.entityId == None && e.confidence == ZeroConfidence && e.coreferenceChainId == NoChain
  {
    Entity(Attribute(0, 0, map[]), None, NoChain, ZeroConfidence)
  }

  /**
   * Equality is reflexive on separate objects with the same fields (whatever
   * the confidence, NaN included) once the id is set, and a different id or
   * chain id makes two entities unequal.
   */
  lemma EqualsReflexiveAndDiscriminating(e: Entity, that: Entity)
    requires e.entityId.Some?
    ensures e.Equals(OtherEntity(e)) == Some(true)
    ensures e.entityId != that.entityId ==> e.Equals(OtherEntity(that)) == Some(false)
    ensures e.coreferenceChainId != that.coreferenceChainId ==> e.Equals(OtherEntity(that)) == Some(false)
    ensures e.Equals(OtherEntity(that)) == that.Equals(OtherEntity(e)) || that.entityId.None?
  {
  }

  /** The entity builder. */
  class Builder {
    var startOffset: int
    var endOffset: int
    var extendedProperties: Bag
    var entityId: Option<string>
    var confidence: Confidence
    var coreferenceChainId: int

    /** Builder(startOffset, endOffset, entityId): no chain, confidence 0.0, no extended properties. */
    constructor (startOffset: int, endOffset: int, entityId: Option<string>)
      ensures this.startOffset == startOffset && this.endOffset == endOffset
      ensures this.entityId == entityId && this.extendedProperties == map[]
      ensures coreferenceChainId == NoChain && confidence == ZeroConfidence
    {
      this.startOffset := startOffset;
      this.endOffset := endOffset;
      this.extendedProperties := map[];
      this.entityId := entityId;
      this.confidence := ZeroConfidence;
      this.coreferenceChainId := NoChain;
    }

    /** Builder(toCopy): every field of toCopy. */
    constructor FromEntity(toCopy: Entity)
      ensures startOffset == toCopy.attribute.startOffset && endOffset == toCopy.attribute.endOffset
      ensures extendedProperties == toCopy.attribute.extendedProperties
      ensures entityId == toCopy.entityId && confidence == toCopy.confidence
      ensures coreferenceChainId == toCopy.coreferenceChainId
    {
      startOffset := toCopy.attribute.startOffset;
      endOffset := toCopy.attribute.endOffset;
      extendedProperties := toCopy.attribute.extendedProperties;
      entityId := toCopy.entityId;
      confidence := toCopy.confidence;
      coreferenceChainId := toCopy.coreferenceChainId;
    }

    method SetEntityId(entityId: Option<string>)
      modifies this`entityId
      ensures this.entityId == entityId
    {
      this.entityId := entityId;
    }

    method SetConfidence(confidence: Confidence)
      modifies this`confidence
      ensures this.confidence == confidence
    {
      this.confidence := confidence;
    }

    method SetCoreferenceChainId(coreferenceChainId: int)
      modifies this`coreferenceChainId
      ensures this.coreferenceChainId == coreferenceChainId
    {
      this.coreferenceChainId := coreferenceChainId;
    }

    /** build(): an entity with the builder's current fields. */
    method Build() returns (e: Entity)
      ensures e == Entity(Attribute(startOffset, endOffset, extendedProperties), entityId, coreferenceChainId, confidence)
    {
      e := Entity(Attribute(startOffset, endOffset, extendedProperties), entityId, coreferenceChainId, confidence);
    }
  }

  /** Copying an entity into a builder and building at once reproduces it. */
  method CopyAndBuild(e: Entity) returns (copy: Entity)
    ensures copy == e
    ensures e.entityId.Some? ==> e.Equals(OtherEntity(copy)) == Some(true)
  {
    var b := new Builder.FromEntity(e);
    copy := b.Build();
  }

  /** A builder given only a span and an id builds an entity with no chain and confidence 0.0. */
  method BuildWithDefaults(startOffset: int, endOffset: int, entityId: string) returns (e: Entity)
    ensures e.entityId == Some(entityId) && e.coreferenceChainId == NoChain && e.confidence == ZeroConfidence
    ensures e.attribute == Attribute(startOffset, endOffset, map[])
  {
    var b := new Builder(startOffset, endOffset, Some(entityId));
    e := b.Build();
  }

  /** Each setter changes its own field only: setting the chain id keeps the id and confidence. */
  method SetChainOnly(e: Entity, chain: int) returns (r: Entity)
    ensures r.coreferenceChainId == chain
    ensures r.entityId == e.entityId && r.confidence == e.confidence
    ensures r.attribute == e.attribute
  {
    var b := new Builder.FromEntity(e);
    b.SetCoreferenceChainId(chain);
    r := b.Build();
  }
}

/** The accessor that tells the GPU how to read one vertex attribute out of a buffer: the
    argument record behind `vertexAttribPointer(index, size, type, normalized, stride, offset)`.
    `FromAttribute` builds it from a CPU attribute, creating the GPU buffer on the way; the
    buffer is represented by the two values it is created from. */
module BufferAccessors {
  import opened Wrappers

  /** Where a buffer is bound: vertex data or element indices. */
  datatype BufferTarget = ArrayBuffer | ElementArrayBuffer

  /** The type of one component of a vertex attribute. */
  datatype ComponentType = Byte | UnsignedByte | Short | UnsignedShort | Int | UnsignedInt | Float

  /** The bytes of an attribute together with their layout. */
  datatype AttributeData = AttributeData(arrayBuffer: seq<bv8>, target: BufferTarget, byteStride: int, byteOffset: int)

  /** A CPU vertex attribute: its data and how many components of which type each vertex has. */
  datatype Attribute = Attribute(attributeData: AttributeData, componentType: ComponentType, componentsPerVertex: int)

  /** A GPU buffer, identified by what it is created from: the bytes and the binding target. */
  datatype Buffer = Buffer(arrayBuffer: seq<bv8>, target: BufferTarget)

  /** The accessor; its constructor stores the six values as given. */
  datatype BufferAccessor = BufferAccessor(
    buffer: Buffer,
    componentType: ComponentType,
    componentsPerVertex: int,
    normalized: bool,
    vertexStride: int,
    byteOffset: int)

  /** The binding target of the buffer `FromAttribute` creates: the explicit one when given,
      otherwise the attribute's own. */
  function Target(attribute: Attribute, bufferTarget: Option<BufferTarget>): BufferTarget {
    if bufferTarget.Some? then bufferTarget.value else attribute.attributeData.target
  }

  /** The accessor as written: the new buffer holds the attribute's bytes under the chosen target,
      the values are never normalized, the stride and the layout are copied, and the byte offset
      is the attribute's added to itself. */
  function FromAttribute(attribute: Attribute, bufferTarget: Option<BufferTarget> := None): (r: BufferAccessor)
    ensures r.buffer.arrayBuffer == attribute.attributeData.arrayBuffer
    ensures bufferTarget.Some? ==> r.buffer.target == bufferTarget.value
    ensures bufferTarget.None? ==> r.buffer.target == attribute.attributeData.target
    ensures !r.normalized
    ensures r.componentType == attribute.componentType && r.componentsPerVertex == attribute.componentsPerVertex
    ensures r.vertexStride == attribute.attributeData.byteStride
    ensures r.byteOffset == 2 * attribute.attributeData.byteOffset
  {
    var data := attribute.attributeData;
    BufferAccessor(
      Buffer(data.arrayBuffer, Target(attribute, bufferTarget)),
      attribute.componentType,
      attribute.componentsPerVertex,
      false,
      data.byteStride,
      data.byteOffset + data.byteOffset)
  }

  /** The accessor with the attribute's byte offset taken over unchanged. */
  function FromAttributeCorrected(attribute: Attribute, bufferTarget: Option<BufferTarget> := None): (r: BufferAccessor)
    ensures r.buffer.arrayBuffer == attribute.attributeData.arrayBuffer
    ensures bufferTarget.Some? ==> r.buffer.target == bufferTarget.value
    ensures bufferTarget.None? ==> r.buffer.target == attribute.attributeData.target
    ensures !r.normalized
    ensures r.componentType == attribute.componentType && r.componentsPerVertex == attribute.componentsPerVertex
    ensures r.vertexStride == attribute.attributeData.byteStride
    ensures r.byteOffset == attribute.attributeData.byteOffset
  {
    FromAttribute(attribute, bufferTarget).(byteOffset := attribute.attributeData.byteOffset)
  }

  /** The attribute an accessor reads when its values are taken as the attribute's layout. */
  function AttributeOf(accessor: BufferAccessor): Attribute {
    Attribute(
      AttributeData(accessor.buffer.arrayBuffer, accessor.buffer.target, accessor.vertexStride, accessor.byteOffset),
      accessor.componentType,
      accessor.componentsPerVertex)
  }

  /** Naming the attribute's own target explicitly changes nothing. */
  lemma ExplicitDefaultTarget(attribute: Attribute)
    ensures FromAttribute(attribute, Some(attribute.attributeData.target)) == FromAttribute(attribute)
  {
  }

  /** An explicit target acts as if the attribute carried it. */
  lemma ExplicitTargetOverrides(attribute: Attribute, target: BufferTarget)
    ensures FromAttribute(attribute, Some(target))
         == FromAttribute(attribute.(attributeData := attribute.attributeData.(target := target)))
  {
  }

  /** The corrected accessor reads back exactly the attribute it was made from. */
  lemma CorrectedRoundTrip(attribute: Attribute)
    ensures AttributeOf(FromAttributeCorrected(attribute)) == attribute
  {
  }

  /** As written, the accessor agrees with the corrected one exactly when the offset is zero,
      so every attribute that starts past the beginning of its buffer is read from the wrong place. */
  lemma ByteOffsetDoubled(attribute: Attribute, bufferTarget: Option<BufferTarget>)
    ensures FromAttribute(attribute, bufferTarget) == FromAttributeCorrected(attribute, bufferTarget)
        <==> attribute.attributeData.byteOffset == 0
    ensures FromAttribute(attribute, bufferTarget).(byteOffset := 0) == FromAttributeCorrected(attribute, bufferTarget).(byteOffset := 0)
  {
  }

  /** A concrete attribute starting 12 bytes into its buffer, which the accessor reads from byte 24. */
  lemma ByteOffsetCounterexample()
    ensures var a := Attribute(AttributeData([], ArrayBuffer, 12, 12), Float, 3);
      FromAttribute(a).byteOffset == 24 && AttributeOf(FromAttribute(a)) != a
  {
  }
}

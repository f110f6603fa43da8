/**
 * Backend resources as abstract handles. Every object the graphics factory
 * creates (a buffer, a resource set) carries a serial number that the
 * renderer's model of the factory hands out, so "a new object was created"
 * and "this object was released" can be stated about plain values.
 */
module Resources {
  import opened PowerOfTwo

  datatype Option<+T> = None | Some(value: T)

  /** Identity of a texture object (dictionary keys compare object identity). */
  datatype Texture = Texture(identity: nat)

  /** A backend resource set (texture plus layout, or constants plus sampler). */
  datatype ResourceSet = ResourceSet(serial: nat)

  datatype BufferKind = VertexBuffer | IndexBuffer

  /** A GPU buffer: its identity, its role and its capacity in bytes. */
  datatype Buffer = Buffer(serial: nat, kind: BufferKind, sizeInBytes: nat)

  /** The entry both registry indexes share: the id handed to the GUI toolkit and its resource set. */
  datatype ResourceSetInfo = ResourceSetInfo(imGuiBinding: int, resourceSet: ResourceSet)

  /** Texture id the GUI toolkit uses for "no texture bound". */
  const NullTextureID: int := 0
  /** Reserved texture id of the font atlas. */
  const FontAtlasID: int := 1
  /** First id handed out for a registered texture. */
  const FirstDynamicID: int := 10

  /** Bytes per vertex: two 2-float fields and one 4-byte colour. */
  const VertexSize: nat := 20
  /** Bytes per index: 16-bit indices. */
  const IndexSize: nat := 2

  const InitialVertexCapacity: nat := 10000
  const InitialIndexCapacity: nat := 2000

  /**
   * Capacity of a buffer after a frame needing `required` bytes: a buffer
   * that is big enough is kept, a smaller one is replaced by one rounded up
   * to a power of two.
   */
  function GrowTo(capacity: nat, required: nat): (r: nat)
    ensures capacity <= r && required <= r
    ensures r == capacity <==> required <= capacity
    ensures r != capacity ==> r < 2 * required && exists k: nat :: r == Pow2(k)
  {
    if required > capacity then NextPowerOfTwo(required) else capacity
  }

  /** Draw-time lookup of a texture id in the id index. */
  function Resolve(byId: map<int, ResourceSetInfo>, id: int): Option<ResourceSet>
  {
    if id in byId then Some(byId[id].resourceSet) else None
  }
}

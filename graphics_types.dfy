/**
 * Engine-level objects the Direct3D 11 backend creates and updates in place:
 * GPU buffers (`cGPUBuffer`), shader programs (`sShaderProgram`), pipelines
 * (`sPipeline`) and meshes (`sMesh`), with the descriptors that request them.
 * Their declarations live in headers that are not part of this model; the
 * fields here are the ones the backend reads and writes.
 */
module GraphicsTypes {
  import opened D3D11Resources

  /** `eGPUBufferType`; `OtherBufferType` is any value the backend's switch does not name. */
  datatype BufferType = IndexBuffer | VertexBuffer | UniformBuffer | OtherBufferType(code: int)

  /** `eGPUBufferUsage`; `OtherUsage` is any value the backend's switch does not name. */
  datatype BufferUsage = StaticDraw | DynamicDraw | OtherUsage(code: int)

  /** `sGPUBufferDesc`. */
  datatype BufferDesc = BufferDesc(name: string, kind: BufferType, usage: BufferUsage, size: nat)

  /**
   * `cGPUBuffer`. Type, usage, name and handle are fixed when the backend
   * creates it; the CPU shadow, its size, the element count, the stride and
   * the platform side table are updated in place afterwards.
   */
  class GpuBuffer {
    const kind: BufferType
    const usage: BufferUsage
    const name: string
    const handle: Handle
    /** `pData`: None for a null pointer, `Some(n)` for a block of `n` bytes. */
    var shadow: Option<nat>
    var size: nat
    var count: nat
    var stride: nat
    /** `pPlatformData`: None for a null pointer. */
    var platformData: Option<UniformBufferData>

    constructor (kind: BufferType, usage: BufferUsage, name: string, handle: Handle)
      ensures this.kind == kind && this.usage == usage && this.name == name && this.handle == handle
      ensures shadow == None && size == 0 && count == 0 && stride == 0 && platformData == None
    {
      this.kind := kind;
      this.usage := usage;
      this.name := name;
      this.handle := handle;
      shadow := None;
      size := 0;
      count := 0;
      stride := 0;
      platformData := None;
    }
  }

  /** `eShaderProgramType`; `OtherShaderType` is any value the backend does not name. */
  datatype ShaderKind = VertexShader | FragmentShader | OtherShaderType(code: int)

  /**
   * `sShaderProgram`. The Direct3D 11 backend never assigns `type` when it
   * creates a program, so the constructor leaves `kind` unspecified.
   */
  class ShaderProgram {
    var kind: ShaderKind
    var handle: Handle
    var shaderBuffers: seq<GpuBuffer>

    constructor (handle: Handle)
      ensures this.handle == handle && shaderBuffers == []
    {
      this.handle := handle;
      shaderBuffers := [];
    }
  }

  /** `sPipeline`: the input-layout handle and the two programs it was built from. */
  class Pipeline {
    var handle: Handle
    var vertexProgram: ShaderProgram?
    var fragmentProgram: ShaderProgram?

    constructor (handle: Handle, vertexProgram: ShaderProgram?, fragmentProgram: ShaderProgram?)
      ensures this.handle == handle
      ensures this.vertexProgram == vertexProgram && this.fragmentProgram == fragmentProgram
    {
      this.handle := handle;
      this.vertexProgram := vertexProgram;
      this.fragmentProgram := fragmentProgram;
    }
  }

  /** `eMeshDrawType`. */
  datatype DrawType = DrawVertices | DrawIndices

  /** `sVertexAttribute`: only `size` (in bytes) matters to this backend. */
  datatype VertexAttribute = VertexAttribute(name: string, componentCount: nat, normalized: bool, size: nat)

  /**
   * `sMeshDesc`: the vertex byte count, the index count, which index
   * pointer is non-null, and the vertex layout (`elements` and
   * `numElements`). The vertex and index contents are not modelled.
   */
  datatype MeshDesc = MeshDesc(
    sizeVertices: nat,
    numIndices: nat,
    hasIndices16: bool,
    hasIndices32: bool,
    elements: seq<VertexAttribute>,
    numElements: nat)

  /** `sMesh`. */
  class Mesh {
    var handle: Handle
    var vertexBuffer: GpuBuffer
    var indexBuffer: GpuBuffer?
    var drawType: DrawType

    constructor (handle: Handle, vertexBuffer: GpuBuffer, indexBuffer: GpuBuffer?, drawType: DrawType)
      ensures this.handle == handle && this.vertexBuffer == vertexBuffer
      ensures this.indexBuffer == indexBuffer && this.drawType == drawType
    {
      this.handle := handle;
      this.vertexBuffer := vertexBuffer;
      this.indexBuffer := indexBuffer;
      this.drawType := drawType;
    }
  }
}

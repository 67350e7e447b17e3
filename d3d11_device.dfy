/**
 * The table-level behaviour of the Direct3D 11 graphics device
 * (`cDirectX11GraphicsDevice`): which resource tables gain or lose
 * entries, which handles and sizes result, and when null is returned.
 *
 * Every native Direct3D call is an opaque step. Where its outcome
 * decides what happens next, it is a parameter: `Some(token)` for the
 * object a successful call produced, `None` for a failed HRESULT.
 */
module D3D11Device {
  import opened D3D11Resources
  import opened GraphicsTypes

  /**
   * `sizeof( Vertex )` in bytes. The `Vertex` struct is not part of this
   * model; 60 is the size of the five float attributes the engine's
   * vertex layout declares (3 + 3 + 3 + 4 + 2 floats of 4 bytes).
   */
  const VertexSize: nat := 60

  /** `sizeof( uint16_t )` and `sizeof( uint32_t )`. */
  const Index16Size: nat := 2
  const Index32Size: nat := 4

  // ---------------------------------------------------------------------
  // Buffer descriptors
  // ---------------------------------------------------------------------

  datatype BindFlag = BindIndexBuffer | BindVertexBuffer | BindConstantBuffer

  /** `D3D11_BUFFER_DESC` as `createGPUBuffer` fills it in. */
  datatype NativeBufferDesc = NativeBufferDesc(byteWidth: nat, bind: BindFlag, dynamicUsage: bool, cpuWrite: bool)

  /**
   * The native descriptor `createGPUBuffer` builds, or None when it gives
   * up before calling the driver.
   */
  function NativeBufferDescOf(desc: BufferDesc): (r: Option<NativeBufferDesc>)
    ensures r.None? <==> desc.size == 0 || desc.kind.OtherBufferType? || desc.usage.OtherUsage?
    ensures r.Some? ==> r.value.byteWidth == desc.size && r.value.dynamicUsage && r.value.cpuWrite
    ensures r.Some? ==> (r.value.bind == BindIndexBuffer <==> desc.kind == IndexBuffer)
    ensures r.Some? ==> (r.value.bind == BindVertexBuffer <==> desc.kind == VertexBuffer)
    ensures r.Some? ==> (r.value.bind == BindConstantBuffer <==> desc.kind == UniformBuffer)
  {
    if desc.size == 0 then None
    else
      match desc.kind
      case OtherBufferType(_) => None
      case _ =>
        var bind := match desc.kind
          case IndexBuffer => BindIndexBuffer
          case VertexBuffer => BindVertexBuffer
          case _ => BindConstantBuffer;
        // Static and dynamic draw both map to D3D11_USAGE_DYNAMIC.
        match desc.usage
        case OtherUsage(_) => None
        case _ => Some(NativeBufferDesc(desc.size, bind, true, true))
  }

  /** What `bufferData` does with a buffer. */
  datatype UploadOutcome =
    | NoNativeBuffer   // the handle has no table entry: nothing happens
    | RejectedEmpty    // null shadow or zero size: an error is logged, nothing is uploaded
    | Uploaded         // the shadow is copied into the native buffer

  /** The fields a freshly created buffer carries, copied from its descriptor. */
  ghost predicate FreshlyAllocated(b: GpuBuffer, desc: BufferDesc)
    reads b
  {
    && b.kind == desc.kind && b.usage == desc.usage && b.name == desc.name
    && b.shadow == Some(desc.size) && b.size == desc.size
    && b.count == 0 && b.stride == 0 && b.platformData == None
  }

  // ---------------------------------------------------------------------
  // Mesh computations
  // ---------------------------------------------------------------------

  /** The number of whole vertices in `sizeVertices` bytes. */
  function VertexCount(sizeVertices: nat): (r: nat)
    ensures r * VertexSize <= sizeVertices < (r + 1) * VertexSize
  {
    sizeVertices / VertexSize
  }

  /** The sum of the byte sizes of a sequence of vertex attributes. */
  function SumSizes(attrs: seq<VertexAttribute>): nat
    decreases |attrs|
  {
    if attrs == [] then 0 else attrs[0].size + SumSizes(attrs[1..])
  }

  lemma {:induction false} SumSizesAppend(a: seq<VertexAttribute>, b: seq<VertexAttribute>)
    ensures SumSizes(a + b) == SumSizes(a) + SumSizes(b)
    decreases |a|
  {
    if a == [] {
      assert a + b == b;
    } else {
      assert (a + b)[0] == a[0];
      assert (a + b)[1..] == a[1..] + b;
      SumSizesAppend(a[1..], b);
    }
  }

  /** No single attribute is wider than the stride of a layout that contains it. */
  lemma {:induction false} AttributeFitsInStride(attrs: seq<VertexAttribute>, i: nat)
    requires i < |attrs|
    ensures attrs[i].size <= SumSizes(attrs)
    decreases |attrs|
  {
    if i > 0 {
      AttributeFitsInStride(attrs[1..], i - 1);
    }
  }

  /** The vertex layout shader programs are loaded with (position, normal, tangent, colour, texture coordinate). */
  function DefaultLayout(): seq<VertexAttribute> {
    [ VertexAttribute("aPosition", 3, false, 4 * 3),
      VertexAttribute("aNormal", 3, false, 4 * 3),
      VertexAttribute("aTangent", 3, false, 4 * 3),
      VertexAttribute("aColor", 4, false, 4 * 4),
      VertexAttribute("aTexCoord0", 2, false, 4 * 2) ]
  }

  /** The default layout's stride is the vertex size that vertex counts are computed with. */
  lemma DefaultLayoutStrideIsVertexSize()
    ensures SumSizes(DefaultLayout()) == VertexSize
  {
  }

  /** The stride loop of `createMesh`: the sum of the first `numElements` attribute sizes. */
  method LayoutStride(elements: seq<VertexAttribute>, numElements: nat) returns (stride: nat)
    requires numElements <= |elements|
    ensures stride == SumSizes(elements[..numElements])
    ensures forall i :: 0 <= i < numElements ==> elements[i].size <= stride
  {
    stride := 0;
    for i := 0 to numElements
      invariant stride == SumSizes(elements[..i])
    {
      assert elements[..i + 1] == elements[..i] + [elements[i]];
      SumSizesAppend(elements[..i], [elements[i]]);
      stride := stride + elements[i].size;
    }
    forall i | 0 <= i < numElements
      ensures elements[i].size <= stride
    {
      AttributeFitsInStride(elements[..numElements], i);
    }
  }

  /** The byte size of a mesh's index buffer: 2 bytes per 16-bit index, 4 per 32-bit index. */
  function IndexBufferSize(desc: MeshDesc): nat {
    desc.numIndices * (if desc.hasIndices16 then Index16Size else Index32Size)
  }

  /** The index format `createMesh` records; the 16-bit pointer wins when both are set. */
  function IndexFormatOf(desc: MeshDesc): IndexFormat {
    if desc.numIndices == 0 then FormatUnknown
    else if desc.hasIndices16 then R16UInt
    else if desc.hasIndices32 then R32UInt
    else FormatUnknown
  }

  /** `createMesh` followed by `destroyMesh` releases the index buffer, then the vertex buffer, and nothing else. */
  lemma CreateThenDestroyMeshBuffers(t: Table<Token>, vb: Token, ib: Token)
    requires Bounded(t)
    ensures var created := Added(Added(t, vb), ib);
            var destroyed := Removed(Removed(created, t.count + 2), t.count + 1);
            destroyed.released == t.released + [ib, vb] && destroyed.entries == t.entries
  {
  }

  // ---------------------------------------------------------------------
  // destroyProgram: as written, and as evidently intended
  // ---------------------------------------------------------------------

  /** The three tables shader programs live in. */
  datatype ProgramTables = ProgramTables(vertexShaders: Table<Token>, blobs: Table<Token>, pixelShaders: Table<Token>)

  /**
   * `destroyProgram` as the source writes it: for a vertex program it
   * removes the pixel-shader entry and the blob entry under the program's
   * handle; for a fragment program the pixel-shader entry. The
   * vertex-shader table is never touched.
   */
  function DestroyProgramAsWritten(s: ProgramTables, kind: ShaderKind, h: Handle): (r: ProgramTables)
    ensures kind == VertexShader ==> Erased(s.pixelShaders, r.pixelShaders, h) && Erased(s.blobs, r.blobs, h)
    ensures kind == FragmentShader ==> Erased(s.pixelShaders, r.pixelShaders, h) && r.blobs == s.blobs
    ensures r.vertexShaders == s.vertexShaders
    ensures kind.OtherShaderType? ==> r == s
  {
    match kind
    case VertexShader => ProgramTables(s.vertexShaders, Removed(s.blobs, h), Removed(s.pixelShaders, h))
    case FragmentShader => ProgramTables(s.vertexShaders, s.blobs, Removed(s.pixelShaders, h))
    case OtherShaderType(_) => s
  }

  /**
   * `destroyProgram` as evidently intended: a vertex program gives up its
   * vertex shader and its blob, a fragment program its pixel shader.
   */
  function DestroyProgramIntended(s: ProgramTables, kind: ShaderKind, h: Handle): (r: ProgramTables)
    ensures kind == VertexShader ==>
              Erased(s.vertexShaders, r.vertexShaders, h) && Erased(s.blobs, r.blobs, h) && r.pixelShaders == s.pixelShaders
    ensures kind == FragmentShader ==>
              Erased(s.pixelShaders, r.pixelShaders, h) && r.vertexShaders == s.vertexShaders && r.blobs == s.blobs
    ensures kind.OtherShaderType? ==> r == s
  {
    match kind
    case VertexShader => ProgramTables(Removed(s.vertexShaders, h), Removed(s.blobs, h), s.pixelShaders)
    case FragmentShader => ProgramTables(s.vertexShaders, s.blobs, Removed(s.pixelShaders, h))
    case OtherShaderType(_) => s
  }

  /**
   * On a fresh device, creating a vertex program and then a fragment
   * program gives both handle 1 (each stage counts in its own table).
   * Destroying the vertex program as written then releases the
   * fragment program's pixel shader while the fragment program still
   * holds handle 1, and leaves the vertex shader in place.
   */
  lemma DestroyVertexProgramReleasesFragmentShader(vs: Token, blob: Token, ps: Token)
    ensures var s := ProgramTables(Added(EmptyTable(), vs), Replaced(EmptyTable(), 1, blob), Added(EmptyTable(), ps));
            var r := DestroyProgramAsWritten(s, VertexShader, 1);
            && Lookup(s.pixelShaders, 1) == Some(ps)
            && r.pixelShaders.released == [ps]
            && Lookup(r.pixelShaders, 1) == None
            && Lookup(r.vertexShaders, 1) == Some(vs)
  {
  }

  /** The same two programs, destroyed as intended: the vertex shader goes and the pixel shader stays. */
  lemma DestroyVertexProgramIntendedKeepsFragmentShader(vs: Token, blob: Token, ps: Token)
    ensures var s := ProgramTables(Added(EmptyTable(), vs), Replaced(EmptyTable(), 1, blob), Added(EmptyTable(), ps));
            var r := DestroyProgramIntended(s, VertexShader, 1);
            && r.vertexShaders.released == [vs]
            && r.pixelShaders == s.pixelShaders
  {
  }

  /** The handle `destroyPipeline` and `bindPipeline` use for a possibly-null program. */
  function ProgramHandle(p: ShaderProgram?): Handle
    reads p
  {
    if p == null then 0 else p.handle
  }

  // ---------------------------------------------------------------------
  // The device
  // ---------------------------------------------------------------------

  /** `cDirectX11GraphicsDevice`, reduced to the resource tables the modelled operations use. */
  class Device {
    const vertexShaders: ResourceMap<Token>
    const vertexShaderBlobs: ResourceMap<Token>
    const pixelShaders: ResourceMap<Token>
    const inputLayouts: ResourceMap<Token>
    const dataBuffers: ResourceMap<Token>
    const meshData: ResourceMap<MeshData>
    /** `m_activePipeline`: the pipeline `bindPipeline` last bound, null until then. */
    var activePipeline: Pipeline?

    /** The tables are six distinct objects. */
    ghost predicate Valid() {
      && vertexShaders != vertexShaderBlobs && vertexShaders != pixelShaders
      && vertexShaders != inputLayouts && vertexShaders != dataBuffers
      && vertexShaderBlobs != pixelShaders && vertexShaderBlobs != inputLayouts
      && vertexShaderBlobs != dataBuffers
      && pixelShaders != inputLayouts && pixelShaders != dataBuffers
      && inputLayouts != dataBuffers
    }

    ghost function ProgramTablesState(): ProgramTables
      reads vertexShaders, vertexShaderBlobs, pixelShaders
    {
      ProgramTables(vertexShaders.State(), vertexShaderBlobs.State(), pixelShaders.State())
    }

    constructor ()
      ensures Valid()
      ensures vertexShaders.State() == EmptyTable() && vertexShaderBlobs.State() == EmptyTable()
      ensures pixelShaders.State() == EmptyTable() && inputLayouts.State() == EmptyTable()
      ensures dataBuffers.State() == EmptyTable() && meshData.State() == EmptyTable()
      ensures activePipeline == null
      ensures fresh(vertexShaders) && fresh(vertexShaderBlobs) && fresh(pixelShaders)
      ensures fresh(inputLayouts) && fresh(dataBuffers) && fresh(meshData)
    {
      vertexShaders := new ResourceMap<Token>();
      vertexShaderBlobs := new ResourceMap<Token>();
      pixelShaders := new ResourceMap<Token>();
      inputLayouts := new ResourceMap<Token>();
      dataBuffers := new ResourceMap<Token>();
      meshData := new ResourceMap<MeshData>();
      activePipeline := null;
    }

    // ----- GPU buffers -----

    /**
     * `createGPUBuffer`. `native` is the outcome of the driver's
     * CreateBuffer, which is only reached once the descriptor is accepted.
     */
    method CreateGPUBuffer(desc: BufferDesc, native: Option<Token>) returns (b: GpuBuffer?)
      modifies dataBuffers
      ensures b == null <==> NativeBufferDescOf(desc).None? || native.None?
      ensures b == null ==> dataBuffers.State() == old(dataBuffers.State())
      ensures b != null ==>
                && fresh(b) && FreshlyAllocated(b, desc)
                && dataBuffers.State() == Added(old(dataBuffers.State()), native.value)
                && b.handle == dataBuffers.count
    {
      var nativeDesc := NativeBufferDescOf(desc);
      if nativeDesc.None? {
        // size zero, or a type or usage the switches do not handle
        return null;
      }
      if native.None? {
        // CreateBuffer failed
        return null;
      }
      var handle := dataBuffers.Add(native.value);
      b := new GpuBuffer(desc.kind, desc.usage, desc.name, handle);
      if desc.size > 0 {
        AllocateBuffer(b, desc.size);
      }
    }

    /** `allocateBuffer`: replaces the CPU shadow with `size` bytes, when the buffer has a native entry. */
    method AllocateBuffer(b: GpuBuffer, size: nat)
      modifies b`shadow, b`size
      ensures b.handle in dataBuffers.entries ==> b.shadow == Some(size) && b.size == size
      ensures b.handle !in dataBuffers.entries ==> b.shadow == old(b.shadow) && b.size == old(b.size)
    {
      var native := dataBuffers.Get(b.handle);
      if native.None? {
        return;
      }
      // the old shadow is freed and a new one of `size` bytes allocated;
      // its contents are then mapped into the native buffer (not modelled)
      b.shadow := Some(size);
      b.size := size;
    }

    /** `bufferData`: uploads the shadow; changes no buffer field and no table. */
    method BufferData(b: GpuBuffer) returns (outcome: UploadOutcome)
      ensures outcome == NoNativeBuffer <==> b.handle !in dataBuffers.entries
      ensures outcome == Uploaded <==> b.handle in dataBuffers.entries && b.shadow.Some? && b.size != 0
    {
      var native := dataBuffers.Get(b.handle);
      if native.None? {
        return NoNativeBuffer;
      }
      if b.shadow.None? || b.size == 0 {
        return RejectedEmpty;
      }
      // Map, memcpy and Unmap on the native buffer
      outcome := Uploaded;
    }

    /** `destroyGPUBuffer`: releases the native buffer and frees the shadow and the platform data. */
    method DestroyGPUBuffer(b: GpuBuffer)
      modifies dataBuffers, b`shadow, b`platformData
      ensures dataBuffers.State() == Removed(old(dataBuffers.State()), b.handle)
      ensures b.shadow == None && b.platformData == None
    {
      dataBuffers.Remove(b.handle);
      if b.shadow.Some? {
        b.shadow := None;
      }
      if b.platformData.Some? {
        b.platformData := None;
      }
    }

    // ----- shader programs -----

    /**
     * `createProgram`. `compiled` is the outcome of D3DCompile (the
     * compiled blob), `created` that of CreateVertexShader or
     * CreatePixelShader. Shader reflection is not modelled, so the new
     * program has no uniform buffers.
     */
    method CreateProgram(kind: ShaderKind, sourceSize: nat, compiled: Option<Token>, created: Option<Token>)
      returns (p: ShaderProgram?)
      requires Valid()
      modifies vertexShaders, vertexShaderBlobs, pixelShaders
      ensures p == null <==> sourceSize == 0 || kind.OtherShaderType? || compiled.None? || created.None?
      ensures p == null ==> ProgramTablesState() == old(ProgramTablesState())
      ensures p != null ==> fresh(p) && p.shaderBuffers == []
      ensures p != null && kind == VertexShader ==>
                && vertexShaders.State() == Added(old(vertexShaders.State()), created.value)
                && p.handle == vertexShaders.count
                && vertexShaderBlobs.State() == Replaced(old(vertexShaderBlobs.State()), p.handle, compiled.value)
                && pixelShaders.State() == old(pixelShaders.State())
      ensures p != null && kind == FragmentShader ==>
                && pixelShaders.State() == Added(old(pixelShaders.State()), created.value)
                && p.handle == pixelShaders.count
                && vertexShaders.State() == old(vertexShaders.State())
                && vertexShaderBlobs.State() == old(vertexShaderBlobs.State())
    {
      if sourceSize == 0 {
        // empty source: rejected before any table is touched
        return null;
      }
      match kind {
        case VertexShader =>
          if compiled.None? || created.None? {
            return null;
          }
          var handle := vertexShaders.Add(created.value);
          var ignored := vertexShaderBlobs.Set(handle, compiled.value);
          p := new ShaderProgram(handle);
        case FragmentShader =>
          if compiled.None? || created.None? {
            return null;
          }
          var handle := pixelShaders.Add(created.value);
          p := new ShaderProgram(handle);
          // the blob is released straight away; it is kept in no table
        case OtherShaderType(_) =>
          return null;
      }
    }

    /** `destroyProgram`, as written (see `DestroyProgramAsWritten`); the handle is zeroed. */
    method DestroyProgram(p: ShaderProgram)
      requires Valid()
      modifies vertexShaderBlobs, pixelShaders, p`handle
      ensures ProgramTablesState() == DestroyProgramAsWritten(old(ProgramTablesState()), p.kind, old(p.handle))
      ensures p.handle == 0
    {
      match p.kind {
        case VertexShader =>
          pixelShaders.Remove(p.handle);
          vertexShaderBlobs.Remove(p.handle);
        case FragmentShader =>
          pixelShaders.Remove(p.handle);
        case OtherShaderType(_) =>
      }
      p.handle := 0;
    }

    /** `destroyProgram` corrected (see `DestroyProgramIntended`): each stage releases its own shader. */
    method DestroyProgramCorrected(p: ShaderProgram)
      requires Valid()
      modifies vertexShaders, vertexShaderBlobs, pixelShaders, p`handle
      ensures ProgramTablesState() == DestroyProgramIntended(old(ProgramTablesState()), p.kind, old(p.handle))
      ensures p.handle == 0
    {
      match p.kind {
        case VertexShader =>
          vertexShaders.Remove(p.handle);
          vertexShaderBlobs.Remove(p.handle);
        case FragmentShader =>
          pixelShaders.Remove(p.handle);
        case OtherShaderType(_) =>
      }
      p.handle := 0;
    }

    // ----- pipelines -----

    /**
     * `createPipeline`. Fails when the vertex program's handle has no blob
     * entry; `layout` is the outcome of CreateInputLayout.
     */
    method CreatePipeline(vertexProgram: ShaderProgram, fragmentProgram: ShaderProgram?, layout: Option<Token>)
      returns (pl: Pipeline?)
      requires Valid()
      modifies inputLayouts
      ensures pl == null <==> vertexProgram.handle !in vertexShaderBlobs.entries || layout.None?
      ensures pl == null ==> inputLayouts.State() == old(inputLayouts.State())
      ensures pl != null ==>
                && fresh(pl)
                && inputLayouts.State() == Added(old(inputLayouts.State()), layout.value)
                && pl.handle == inputLayouts.count
                && pl.vertexProgram == vertexProgram && pl.fragmentProgram == fragmentProgram
    {
      var blob := vertexShaderBlobs.Get(vertexProgram.handle);
      if blob.None? {
        // no blob under the vertex program's handle
        return null;
      }
      if layout.None? {
        return null;
      }
      var handle := inputLayouts.Add(layout.value);
      pl := new Pipeline(handle, vertexProgram, fragmentProgram);
    }

    /** `destroyPipeline`: removes the layout and both programs' shaders; the handle is zeroed. */
    method DestroyPipeline(pl: Pipeline)
      requires Valid()
      modifies inputLayouts, vertexShaders, pixelShaders, pl`handle
      ensures inputLayouts.State() == Removed(old(inputLayouts.State()), old(pl.handle))
      ensures vertexShaders.State() == Removed(old(vertexShaders.State()), ProgramHandle(pl.vertexProgram))
      ensures pixelShaders.State() == Removed(old(pixelShaders.State()), ProgramHandle(pl.fragmentProgram))
      ensures pl.handle == 0
    {
      var layoutHandle := pl.handle;
      var vertexHandle := ProgramHandle(pl.vertexProgram);
      var pixelHandle := ProgramHandle(pl.fragmentProgram);
      inputLayouts.Remove(layoutHandle);
      vertexShaders.Remove(vertexHandle);
      pixelShaders.Remove(pixelHandle);
      pl.handle := 0;
    }

    /**
     * `bindPipeline`: looks up the pipeline's layout and shaders (null
     * for missing handles), hands them and the vertex program's constant
     * buffers to the device context, and records the pipeline as active.
     * Only the lookups and the record are modelled; no table changes.
     */
    method BindPipeline(pl: Pipeline) returns (layout: Option<Token>, vertexShader: Option<Token>, pixelShader: Option<Token>)
      modifies this`activePipeline
      ensures activePipeline == pl
      ensures layout == Lookup(inputLayouts.State(), pl.handle)
      ensures vertexShader == Lookup(vertexShaders.State(), ProgramHandle(pl.vertexProgram))
      ensures pixelShader == Lookup(pixelShaders.State(), ProgramHandle(pl.fragmentProgram))
    {
      layout := inputLayouts.Get(pl.handle);
      vertexShader := vertexShaders.Get(ProgramHandle(pl.vertexProgram));
      pixelShader := pixelShaders.Get(ProgramHandle(pl.fragmentProgram));
      // IASetInputLayout, VSSetShader, PSSetShader and VSSetConstantBuffers
      activePipeline := pl;
    }

    // ----- meshes -----

    /**
     * `createMesh`. The source dereferences the vertex buffer (and, with
     * indices, the index buffer) without a null check, so it needs a
     * non-empty vertex block, one non-null index pointer when there are
     * indices, and CreateBuffer to succeed (`vertexNative`, `indexNative`).
     */
    method CreateMesh(desc: MeshDesc, vertexNative: Token, indexNative: Token) returns (m: Mesh)
      requires desc.sizeVertices > 0
      requires desc.numIndices > 0 ==> desc.hasIndices16 || desc.hasIndices32
      requires desc.numElements <= |desc.elements|
      modifies dataBuffers, meshData
      ensures fresh(m) && fresh(m.vertexBuffer)
      ensures m.drawType == (if desc.numIndices > 0 then DrawIndices else DrawVertices)
      ensures m.handle == meshData.count && m.handle == old(meshData.count) + 1
      ensures m.handle in meshData.entries && fresh(meshData.entries[m.handle])
      ensures meshData.State() == Added(old(meshData.State()), meshData.entries[m.handle])
      ensures meshData.entries[m.handle].indexFormat == IndexFormatOf(desc)
      ensures var vb := m.vertexBuffer;
              && vb.kind == VertexBuffer && vb.usage == StaticDraw && vb.name == "vbo"
              && vb.handle == old(dataBuffers.count) + 1
              && vb.shadow == Some(desc.sizeVertices) && vb.size == desc.sizeVertices
              && vb.count == VertexCount(desc.sizeVertices)
              && vb.stride == SumSizes(desc.elements[..desc.numElements])
              && vb.platformData == None
      ensures desc.numIndices == 0 ==>
                && m.indexBuffer == null
                && dataBuffers.State() == Added(old(dataBuffers.State()), vertexNative)
      ensures desc.numIndices > 0 ==>
                && m.indexBuffer != null && fresh(m.indexBuffer)
                && m.indexBuffer.kind == IndexBuffer && m.indexBuffer.usage == StaticDraw
                && m.indexBuffer.name == "ebo"
                && m.indexBuffer.handle == old(dataBuffers.count) + 2
                && m.indexBuffer.count == desc.numIndices
                && m.indexBuffer.size == IndexBufferSize(desc)
                && m.indexBuffer.shadow == Some(IndexBufferSize(desc))
                && m.indexBuffer.stride == 0 && m.indexBuffer.platformData == None
                && dataBuffers.State() == Added(Added(old(dataBuffers.State()), vertexNative), indexNative)
    {
      var vb := CreateVertexBuffer(desc.sizeVertices, vertexNative);

      var md := new MeshData();
      var handle := meshData.Add(md);

      // the vertex data is copied into the shadow (not modelled) and uploaded
      var uploadedVertices := BufferData(vb);

      var ib: GpuBuffer? := null;
      var drawType: DrawType;
      if desc.numIndices > 0 {
        drawType := DrawIndices;
        ib := CreateIndexBuffer(desc, indexNative, md);
      } else {
        drawType := DrawVertices;
      }

      var stride := LayoutStride(desc.elements, desc.numElements);
      vb.stride := stride;

      m := new Mesh(handle, vb, ib, drawType);
    }

    /** The vertex-buffer steps of `createMesh`: create the buffer and set its vertex count. */
    method CreateVertexBuffer(sizeVertices: nat, native: Token) returns (vb: GpuBuffer)
      requires sizeVertices > 0
      modifies dataBuffers
      ensures fresh(vb)
      ensures vb.kind == VertexBuffer && vb.usage == StaticDraw && vb.name == "vbo"
      ensures vb.handle == dataBuffers.count && vb.handle == old(dataBuffers.count) + 1
      ensures vb.shadow == Some(sizeVertices) && vb.size == sizeVertices
      ensures vb.count == VertexCount(sizeVertices) && vb.stride == 0 && vb.platformData == None
      ensures dataBuffers.State() == Added(old(dataBuffers.State()), native)
    {
      var vbDesc := BufferDesc("vbo", VertexBuffer, StaticDraw, sizeVertices);
      vb := CreateGPUBuffer(vbDesc, Some(native));
      vb.count := VertexCount(sizeVertices);
    }

    /**
     * The index-buffer steps of `createMesh`: pick the index size and
     * format from the non-null index pointer, create the buffer, set its
     * index count, reallocate its shadow and upload it.
     */
    method CreateIndexBuffer(desc: MeshDesc, native: Token, md: MeshData) returns (ib: GpuBuffer)
      requires desc.numIndices > 0
      requires desc.hasIndices16 || desc.hasIndices32
      modifies dataBuffers, md
      ensures fresh(ib)
      ensures ib.kind == IndexBuffer && ib.usage == StaticDraw && ib.name == "ebo"
      ensures ib.handle == dataBuffers.count && ib.handle == old(dataBuffers.count) + 1
      ensures ib.count == desc.numIndices
      ensures ib.size == IndexBufferSize(desc) && ib.shadow == Some(IndexBufferSize(desc))
      ensures ib.stride == 0 && ib.platformData == None
      ensures md.indexFormat == IndexFormatOf(desc)
      ensures dataBuffers.State() == Added(old(dataBuffers.State()), native)
    {
      var ibSize: nat;
      if desc.hasIndices16 {
        ibSize := desc.numIndices * Index16Size;
        md.indexFormat := R16UInt;
      } else {
        ibSize := desc.numIndices * Index32Size;
        md.indexFormat := R32UInt;
      }
      var ibDesc := BufferDesc("ebo", IndexBuffer, StaticDraw, ibSize);
      ib := CreateGPUBuffer(ibDesc, Some(native));
      ib.count := desc.numIndices;
      AllocateBuffer(ib, ibSize);
      // the index data is copied into the shadow (not modelled) and uploaded
      var uploadedIndices := BufferData(ib);
    }

    /**
     * `destroyMesh`. The source passes the index buffer to
     * `destroyGPUBuffer` without a null check, so the mesh must be indexed.
     */
    method DestroyMesh(m: Mesh)
      requires m.indexBuffer != null
      modifies dataBuffers, meshData
      modifies m.indexBuffer`shadow, m.indexBuffer`platformData
      modifies m.vertexBuffer`shadow, m.vertexBuffer`platformData
      ensures dataBuffers.State() ==
                Removed(Removed(old(dataBuffers.State()), m.indexBuffer.handle), m.vertexBuffer.handle)
      ensures meshData.State() == Removed(old(meshData.State()), m.handle)
      ensures m.indexBuffer.shadow == None && m.indexBuffer.platformData == None
      ensures m.vertexBuffer.shadow == None && m.vertexBuffer.platformData == None
    {
      DestroyGPUBuffer(m.indexBuffer);
      DestroyGPUBuffer(m.vertexBuffer);
      meshData.Remove(m.handle);
    }
  }
}

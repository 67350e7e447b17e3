# Wyvern Direct3D 11 backend and scene graph, in Dafny

This project models the resource bookkeeping of the Wyvern engine's
Direct3D 11 graphics device. It also models the child lists of the engine's
scene graph and the by-name uniform-buffer lookup of a program pipeline.

- **Resource tables** (`D3D11Resources`). A `sD3D11ResourceMap<T>` is a
  counter plus a handle-to-object map. It is modelled as the class
  `ResourceMap`. Each of its methods is specified by a function on the value
  `Table`: `Added`, `Replaced`, `Removed`, `Lookup`. Calls to the native
  `Release()` are appended to a ghost log, so "released exactly once" can be
  stated. Lemmas over whole sequences of calls prove two things. Issued
  handles are consecutive from 1. When every `add` lands on a free key, no
  stored object is lost, and entries plus releases grow by exactly the number
  of stores.
- **Graphics objects** (`GraphicsTypes`). These are the engine objects the
  device fills in and updates in place: `cGPUBuffer`, `sShaderProgram`,
  `sPipeline` and `sMesh`, with their descriptors.
- **The device** (`D3D11Device`). `cDirectX11GraphicsDevice` is reduced to
  six of its ten resource tables and the active pipeline. Each method models the table-level effect of its
  operation: the create and destroy operations for GPU buffers, shader
  programs, pipelines and meshes, plus `allocateBuffer` and `bufferData`.
  Each native Direct3D call whose outcome matters is a parameter:
  `Some(token)` for the object a successful call produced, `None` for a
  failed HRESULT. The stride loop of `createMesh` is a loop proved against
  a sum over the layout.
- **Scene graph** (`SceneGraph`). `iSceneObject::addChild`, `removeChild` and
  `moveChild` change the child list in place. They are specified against the
  list functions `WithChild` and `RemoveFirst`. The parent pointers and the
  transform parent link are stated too.
- **Uniform-buffer lookup** (`ShaderPipeline`).
  `cProgramPipeline::getShaderBuffer` is a pure first-match search. It is
  proved equal to one search over the vertex buffers followed by the
  fragment buffers.

Source paths below are relative to the repository root.

## Model

| member | source | states |
|---|---|---|
| D3D11Resources.Added | source/Engine/wv/Device/GraphicsDevice/DirectX11/DirectX11GraphicsDevice.h:61-65 | `add` pre-increments the counter. The value is then found under the new counter. Every other handle and the release log are unchanged. On a table whose keys all came from `add`, the new handle was not in use. |
| D3D11Resources.Removed | source/Engine/wv/Device/GraphicsDevice/DirectX11/DirectX11GraphicsDevice.h:84-92 | `remove` leaves the handle absent and the other handles and the counter unchanged. If the handle was present, its value is released exactly once. An absent handle changes nothing. |
| D3D11Resources.Replaced | source/Engine/wv/Device/GraphicsDevice/DirectX11/DirectX11GraphicsDevice.h:67-72 | `set(i, v)` releases any previous occupant of slot `i`, as `remove` would, and then stores `v` there. The counter and the other handles are unchanged. |
| D3D11Resources.IssuedHandlesConsecutive | source/Engine/wv/Device/GraphicsDevice/DirectX11/DirectX11GraphicsDevice.h:61-65 | Over any sequence of `add`/`set`/`remove` calls, the k-th `add` returns `count + 1 + k`. The counter ends at the last handle issued. |
| D3D11Resources.IssuedHandlesIncrease | source/Engine/wv/Device/GraphicsDevice/DirectX11/DirectX11GraphicsDevice.h:61-65 | Handles issued by `add` are never 0, exceed the starting counter, and strictly increase. |
| D3D11Resources.RunConservesValues | source/Engine/wv/Device/GraphicsDevice/DirectX11/DirectX11GraphicsDevice.h:61-92 | Take any call sequence in which every `add` stores under a free key. Every object held or released before, and every object the calls store, is afterwards stored under some handle or in the release log. The number of entries plus releases grows by exactly the number of stores. The release log only grows. |
| D3D11Resources.StepHolds | source/Engine/wv/Device/GraphicsDevice/DirectX11/DirectX11GraphicsDevice.h:61-92 | One `add` on a free key, one `set` or one `remove` keeps every held or released object accounted for. It accounts for the object it stores, and grows entries plus releases by one per store. |
| D3D11Resources.BoundedRunsAddToFreeKeys | source/Engine/wv/Device/GraphicsDevice/DirectX11/DirectX11GraphicsDevice.h:61-72 | On a table whose keys all came from its own `add`, with every `set` aimed at an issued handle, every `add` lands on a free key. The keys stay between 1 and the counter. |
| D3D11Resources.SetOnlyRunsAddToFreeKeys | source/Engine/wv/Device/GraphicsDevice/DirectX11/DirectX11GraphicsDevice.cpp:556-557 | A call sequence without `add` adds to no occupied key. The vertex-shader blob table, which is written only through `set` with another table's handles, is such a table, so value conservation applies to it. |
| D3D11Resources.RemoveTwiceReleasesOnce | source/Engine/wv/Device/GraphicsDevice/DirectX11/DirectX11GraphicsDevice.h:86-91 | A second `remove` of the same handle changes nothing and releases nothing. |
| D3D11Resources.AddThenRemove | source/Engine/wv/Device/GraphicsDevice/DirectX11/DirectX11GraphicsDevice.h:61-92 | After `h := add(v)`, `get(h)` is `v`. After a following `remove(h)`, `get(h)` is null and `v` has been released. |
| D3D11Resources.ResourceMap.constructor | source/Engine/wv/Device/GraphicsDevice/DirectX11/DirectX11GraphicsDevice.h:58-59 | A new table has counter 0 and no entries. |
| D3D11Resources.ResourceMap.Add | source/Engine/wv/Device/GraphicsDevice/DirectX11/DirectX11GraphicsDevice.h:61-65 | The new state is `Added` of the old state. The returned handle is the old counter plus 1, which is also the new counter. |
| D3D11Resources.ResourceMap.Set | source/Engine/wv/Device/GraphicsDevice/DirectX11/DirectX11GraphicsDevice.h:67-72 | The new state is `Replaced` of the old state. The return value is the unchanged counter, not the slot. |
| D3D11Resources.ResourceMap.Get | source/Engine/wv/Device/GraphicsDevice/DirectX11/DirectX11GraphicsDevice.h:74-82 | Returns the stored value exactly when the handle is present, and null otherwise. Nothing changes. |
| D3D11Resources.ResourceMap.Remove | source/Engine/wv/Device/GraphicsDevice/DirectX11/DirectX11GraphicsDevice.h:84-92 | The new state is `Removed` of the old state. |
| D3D11Device.NativeBufferDescOf | source/Engine/wv/Device/GraphicsDevice/DirectX11/DirectX11GraphicsDevice.cpp:756-782 | `createGPUBuffer` gives up in exactly three cases: zero size, a type other than index/vertex/uniform, or a usage other than static/dynamic. Otherwise the byte width is the size. Usage is dynamic with CPU write access. The bind flag corresponds one-to-one to the buffer type. |
| D3D11Device.VertexCount | source/Engine/wv/Device/GraphicsDevice/DirectX11/DirectX11GraphicsDevice.cpp:919-920 | The vertex count is the number of whole vertices that fit in `sizeVertices` bytes: truncating division by the vertex size. |
| D3D11Device.SumSizesAppend | source/Engine/wv/Device/GraphicsDevice/DirectX11/DirectX11GraphicsDevice.cpp:985-989 | The stride of a concatenated layout is the sum of the two strides. |
| D3D11Device.AttributeFitsInStride | source/Engine/wv/Device/GraphicsDevice/DirectX11/DirectX11GraphicsDevice.cpp:985-989 | No attribute of a layout is wider than the layout's stride. |
| D3D11Device.DefaultLayoutStrideIsVertexSize | source/Engine/wv/Shader/ShaderProgram.cpp:40-48 | The five-attribute layout shader programs are loaded with has a stride equal to the vertex size used for vertex counts (60 bytes). |
| D3D11Device.LayoutStride | source/Engine/wv/Device/GraphicsDevice/DirectX11/DirectX11GraphicsDevice.cpp:983-989 | The stride loop computes the sum of the sizes of the first `numElements` attributes. Each of those attributes fits within it. |
| D3D11Device.CreateThenDestroyMeshBuffers | source/Engine/wv/Device/GraphicsDevice/DirectX11/DirectX11GraphicsDevice.cpp:1036-1045 | Destroying a just-created indexed mesh releases its index buffer, then its vertex buffer. It leaves the data-buffer table's entries as they were before creation. |
| D3D11Device.DestroyProgramAsWritten | source/Engine/wv/Device/GraphicsDevice/DirectX11/DirectX11GraphicsDevice.cpp:621-637 | `destroyProgram` as written. A vertex program's handle is erased from the pixel-shader table and the blob table: absent afterwards, the other handles untouched, the stored value released once. A fragment program's handle is erased from the pixel-shader table only. The vertex-shader table is never touched. Any other type changes nothing. |
| D3D11Device.DestroyProgramIntended | source/Engine/wv/Device/GraphicsDevice/DirectX11/DirectX11GraphicsDevice.cpp:621-637 | Corrected `destroyProgram`. A vertex program's handle is erased from the vertex-shader and blob tables, and the pixel-shader table is untouched. A fragment program's handle is erased from the pixel-shader table only. Erasing means: absent afterwards, the other handles untouched, the stored value released once. |
| D3D11Device.DestroyVertexProgramReleasesFragmentShader | source/Engine/wv/Device/GraphicsDevice/DirectX11/DirectX11GraphicsDevice.cpp:626-630 | Create a vertex program and then a fragment program on a fresh device: both get handle 1. Destroying the vertex program as written then releases the fragment program's pixel shader and keeps the vertex shader. |
| D3D11Device.DestroyVertexProgramIntendedKeepsFragmentShader | source/Engine/wv/Device/GraphicsDevice/DirectX11/DirectX11GraphicsDevice.cpp:626-630 | In the same situation, the corrected destroy releases the vertex shader and keeps the pixel-shader table intact. |
| D3D11Device.Device.constructor | source/Engine/wv/Device/GraphicsDevice/DirectX11/DirectX11GraphicsDevice.h:52-93 | A new device has six distinct, newly allocated, empty resource tables and no active pipeline, so its methods may change those tables. |
| D3D11Device.Device.CreateGPUBuffer | source/Engine/wv/Device/GraphicsDevice/DirectX11/DirectX11GraphicsDevice.cpp:750-813 | Returns null exactly when the descriptor is rejected or CreateBuffer fails, and the table is then unchanged. Otherwise the native buffer is added under a fresh handle. The new buffer carries that handle, copies type, usage and name from the descriptor, and has a shadow of `size` bytes. |
| D3D11Device.Device.AllocateBuffer | source/Engine/wv/Device/GraphicsDevice/DirectX11/DirectX11GraphicsDevice.cpp:846-870 | With no table entry for the buffer's handle, nothing changes. Otherwise the shadow is replaced by `size` bytes and `size` is set; no other field or table changes. |
| D3D11Device.Device.BufferData | source/Engine/wv/Device/GraphicsDevice/DirectX11/DirectX11GraphicsDevice.cpp:817-842 | Changes no field and no table. It does nothing for a handle without an entry. It refuses a null shadow or zero size. It uploads exactly in the remaining case. |
| D3D11Device.Device.DestroyGPUBuffer | source/Engine/wv/Device/GraphicsDevice/DirectX11/DirectX11GraphicsDevice.cpp:874-893 | The buffer's handle is removed from the data-buffer table. The shadow and the platform data are null afterwards. |
| D3D11Device.Device.CreateProgram | source/Engine/wv/Device/GraphicsDevice/DirectX11/DirectX11GraphicsDevice.cpp:500-619 | Returns null, changing no table, exactly for empty source, an unknown type, or a failed compile or create. A vertex program adds its shader and stores its blob under the same handle. A fragment program adds its pixel shader and stores no blob. The uniform buffers shader reflection would add are not modelled. |
| D3D11Device.Device.DestroyProgram | source/Engine/wv/Device/GraphicsDevice/DirectX11/DirectX11GraphicsDevice.cpp:621-637 | The three shader tables change as `DestroyProgramAsWritten` says, and the program's handle becomes 0. |
| D3D11Device.Device.DestroyProgramCorrected | source/Engine/wv/Device/GraphicsDevice/DirectX11/DirectX11GraphicsDevice.cpp:621-637 | Corrected `destroyProgram`: the shader tables change as `DestroyProgramIntended` says, and the handle becomes 0. |
| D3D11Device.Device.CreatePipeline | source/Engine/wv/Device/GraphicsDevice/DirectX11/DirectX11GraphicsDevice.cpp:639-695 | Returns null, adding no input layout, exactly when the vertex program has no blob entry or CreateInputLayout fails. Otherwise the layout is added under a fresh handle, and the pipeline records that handle and both programs. |
| D3D11Device.Device.DestroyPipeline | source/Engine/wv/Device/GraphicsDevice/DirectX11/DirectX11GraphicsDevice.cpp:697-710 | Removes the layout entry, the vertex program's vertex-shader entry and the fragment program's pixel-shader entry (handle 0 for a null program), then zeroes the pipeline handle. |
| D3D11Device.Device.BindPipeline | source/Engine/wv/Device/GraphicsDevice/DirectX11/DirectX11GraphicsDevice.cpp:712-746 | Looks up the pipeline's input layout, its vertex program's vertex shader and its fragment program's pixel shader, using handle 0 for a null program and null for a missing entry. Records the pipeline as the active one. No table changes. |
| D3D11Device.Device.CreateMesh | source/Engine/wv/Device/GraphicsDevice/DirectX11/DirectX11GraphicsDevice.cpp:897-1032 | The draw type is indexed exactly when there are indices. The vertex buffer holds `sizeVertices` bytes, with the vertex count and the layout stride. The index buffer holds 2 or 4 bytes per index, with the index count, and the recorded index format matches. Buffer handles are consecutive. The mesh gets a fresh mesh-data handle. |
| D3D11Device.Device.CreateVertexBuffer | source/Engine/wv/Device/GraphicsDevice/DirectX11/DirectX11GraphicsDevice.cpp:911-920 | The "vbo" static vertex buffer of `sizeVertices` bytes is added to the data-buffer table, and its count is the vertex count. |
| D3D11Device.Device.CreateIndexBuffer | source/Engine/wv/Device/GraphicsDevice/DirectX11/DirectX11GraphicsDevice.cpp:934-980 | The "ebo" static index buffer is added, sized by the first non-null index pointer. Its count is `numIndices`. The mesh data records the matching index format. |
| D3D11Device.Device.DestroyMesh | source/Engine/wv/Device/GraphicsDevice/DirectX11/DirectX11GraphicsDevice.cpp:1036-1052 | Removes the index buffer's, then the vertex buffer's, data-buffer entry and the mesh-data entry. Both buffers' shadows and platform data become null. |
| SceneGraph.WithChild | source/Engine/wv/Scene/SceneObject.cpp:21-31 | The node is afterwards a child. A node already present leaves the list unchanged. Otherwise the node is appended and the earlier children keep their order. No duplicates are introduced. |
| SceneGraph.RemoveFirst | source/Engine/wv/Scene/SceneObject.cpp:35-49 | A non-child leaves the list unchanged, and a child shortens it by one. |
| SceneGraph.RemoveFirstMultiset | source/Engine/wv/Scene/SceneObject.cpp:40-48 | Removal takes away exactly one occurrence of the node and nothing else. |
| SceneGraph.RemoveFirstNoDuplicates | source/Engine/wv/Scene/SceneObject.cpp:40-48 | On a duplicate-free list, the removed node no longer occurs afterwards, and the list stays duplicate-free. |
| SceneGraph.RemoveFirstAt | source/Engine/wv/Scene/SceneObject.cpp:40-45 | Removal erases exactly the element at the first index holding the node and keeps the rest in order. |
| SceneGraph.SceneObject.IndexOfChild | source/Engine/wv/Scene/SceneObject.cpp:25-26 | The scan returns the first index holding the node, or -1 exactly when the node is not a child. |
| SceneGraph.SceneObject.AddChild | source/Engine/wv/Scene/SceneObject.cpp:21-31 | A null node changes nothing. The children become `WithChild` of the old list. A newly added node points back at this node, and its transform at this node's transform. A node already present keeps both links. |
| SceneGraph.SceneObject.RemoveChild | source/Engine/wv/Scene/SceneObject.cpp:35-49 | A null node changes nothing. The children become `RemoveFirst` of the old list. A removed node's parent is cleared and its transform link is untouched. |
| SceneGraph.SceneObject.MoveChild | source/Engine/wv/Scene/SceneObject.cpp:53-60 | If either argument is null, nothing changes: the children and parent links of this node, the node and the new parent are kept. Otherwise the node is removed from this node's children and added to the new parent's. Unless the node is this node or the new parent, its own children are kept. A node not yet among the new parent's children then points at it, and so does its transform. A node already among them keeps its transform link, and its parent is cleared exactly when it was this node's child. The new parent's own parent is kept. |
| ShaderPipeline.FirstNamed | source/Engine/wv/Shader/ShaderProgram.cpp:90-93 | The first index whose buffer has the name. It is None exactly when no buffer has the name. |
| ShaderPipeline.FirstNamedAppend | source/Engine/wv/Shader/ShaderProgram.cpp:88-106 | Searching a concatenation yields the first list's match if it has one, else the second list's match shifted past the first list. |
| ShaderPipeline.NamedIn | source/Engine/wv/Shader/ShaderProgram.cpp:90-93 | A non-null result is one of the buffers and has the name. The result is null exactly when no buffer has the name. |
| ShaderPipeline.GetShaderBuffer | source/Engine/wv/Shader/ShaderProgram.cpp:86-107 | A non-null result has the name and belongs to one of the two programs. The vertex program's first match wins. Failing that, the fragment program's first match. The result is null exactly when neither program has a match. A null program counts as having no buffers. |
| ShaderPipeline.GetShaderBufferIsSearchOfBoth | source/Engine/wv/Shader/ShaderProgram.cpp:86-107 | The two-stage lookup equals one first-match search over the vertex buffers followed by the fragment buffers. |

## Left out

- Native Direct3D 11 and DXGI work is not modelled: device and swap-chain setup, adapter enumeration, `swapBuffers`, `setViewport`, `draw`, `bindPipeline`'s binding calls, error-message queries, and the Map/memcpy/Unmap uploads. These are foreign API calls. Only the success or failure each one reports is kept, as a parameter.
- `reflectShader` is not modelled. It fills a program's uniform buffers from D3DReflect, so programs created here have no uniform buffers.
- D3D11Device.Device.CreateProgram: the uniform buffers `reflectShader` creates through `createGPUBuffer`, one data-buffer table entry per constant buffer, are not modelled. So the contract states the data-buffer table unchanged, where the source adds those entries.
- D3D11Device.Device.BindPipeline: the native binding calls and the constant-buffer lookups for the vertex program's uniform buffers are not modelled. Only the three table lookups and the active-pipeline record are.
- The operations compiled only with the OpenGL fallback in this backend (`setRenderTarget`, `destroyRenderTarget`, `clearRenderTarget`, `createTexture`, `destroyTexture`, `bindTextureToSlot`, `getError`) are not modelled.
- The texture, shader-resource-view, sampler and render-target-data tables of `cDirectX11GraphicsDevice` are not modelled. No operation in `DirectX11GraphicsDevice.cpp` reads or writes them. They belong to the texture and render-target operations, which are not modelled either.
- `createRenderTarget` is not modelled. It only copies width and height into a new render target.
- The command-buffer pool and `cProgramPipeline::load` are not modelled. They are file loading and mutex-guarded submission.
- `createMesh`'s material pointer and its `addChild` on the parent transform are not modelled. The first is only copied. The second links engine transforms, which the `sMesh` model does not carry.
- The contents of CPU shadows and of the vertex and index data are not modelled. `cGPUBuffer::buffer` is not part of this model. A shadow is represented only by its byte size.
- D3D11Resources.ResourceMap.Add: the 32-bit counter is an unbounded `nat`, so wrap-around after 2^32 - 1 handles is not modelled.
- D3D11Device.LayoutStride: the `int` stride accumulator is unbounded, so overflow on huge layouts is not modelled.
- D3D11Device.Device.CreateProgram: the source never assigns the new program's type, so the model leaves `kind` unspecified. `destroyProgram` reads it.
- D3D11Device.VertexCount: the `Vertex` struct is not part of this model. Its size is taken to be 60 bytes, the five float attributes of the layout shader programs are loaded with.
- GraphicsTypes.GpuBuffer.constructor: the `cGPUBuffer` declaration is not part of this model. Its fields are taken to start at zero and null.
- D3D11Device.Device.CreateMesh requires a non-empty vertex block and, when there are indices, one non-null index pointer. Otherwise the source dereferences a null buffer. It also requires CreateBuffer to succeed, since the source does not check that either.
- D3D11Device.Device.DestroyMesh requires an indexed mesh. For an unindexed one, the source passes a null index buffer to `destroyGPUBuffer`.
- `Transform` is reduced to its parent link. The transform hierarchy's matrices are not modelled.

## Findings

| source | as written | input that shows it | evidently intended | confidence | as-written member | corrected member |
|---|---|---|---|---|---|---|
| source/Engine/wv/Device/GraphicsDevice/DirectX11/DirectX11GraphicsDevice.cpp:626-630 | Destroying a vertex program removes the pixel-shader table entry under its handle, and leaves its vertex shader in the vertex-shader table | On a fresh device, create a vertex program and then a fragment program (both get handle 1), then destroy the vertex program: the fragment program's pixel shader is released | Remove the vertex-shader entry and the blob entry, leaving the pixel-shader table alone | not executed | D3D11Device.DestroyProgramAsWritten | D3D11Device.DestroyProgramIntended |

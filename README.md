# CVCT_Vulkan render stages in Dafny

CVCT_Vulkan is a voxel cone tracing renderer. Its passes are built as *render
stages*: a `RenderState` record holds a stage's GPU handles (pipeline cache,
pipeline layout, descriptor pool, and the arrays of semaphores, descriptor-set
layouts, descriptor sets and pipelines). It also holds a timestamp query pool,
the command buffers and a parameter block together with the function that
records command buffers from it.

This project models three parts of the renderer:

- **The forward stage** (`ForwardRenderState.cpp`, module `ForwardRenderState`).
  - It creates every resource only while its handle is null.
  - It allocates `DYNAMIC_DESCRIPTOR_SET_COUNT` dynamic descriptor sets per
    framebuffer, in row-major order.
  - It records one command buffer per framebuffer. Each submesh claims the next
    set of the framebuffer's range and gets it filled by three descriptor copies
    (diffuse, normal, opacity) out of the static image array. The draw indexes
    that set.
- **The post-voxelizer compute stage** (`PostVoxelizerState.cpp`, module
  `PostVoxelizerState`).
  - It records one command buffer per cascade of the anisotropic voxel texture.
    Each pushes the grid size and its cascade index, then dispatches
    `(w/8·6, w/8, w/8)` work groups.
  - It writes its single descriptor set only on the call that allocates it.
- **Image asset packing** (`ImageLoader.cpp`, module `ImageLoader`). It turns a
  decoded image into a blob: an image descriptor, one mip descriptor and
  row-major `uint32` pixels packed as `c0 | c1<<8 | c2<<16 | c3<<24`.

Shared modules:

- `Vulkan` is an abstract device. A handle is an index into the list of objects
  created so far, and creating an object appends its creation info. Commands
  are values, and descriptor updates go into a host-side log.
- `RenderStates` holds the `RenderState` class and the create-if-null step
  shared by both stages.
- `RowMajorIndex` holds the row-major index arithmetic used by the pixel buffer
  and by the descriptor-set slots.
- `Wrappers` holds `Option`, which stands for a nullable handle or pointer.

Each stage's resource creation is specified as a value function of the old
handle fields and the old device objects (`ForwardCreation`,
`PostVoxelizerCreation`). The imperative methods are proved equal to it, and
the create-if-null rule and the second-call behaviour are proved about that
value. Recording is specified by functions on command sequences
(`ForwardCommands`, `PostVoxelizerCommands`). The recording loops are proved to
produce exactly those sequences, and lemmas project from them what was drawn,
bound and copied.

The stored recorder function pointer and its byte-cast parameter block are a
tagged datatype: `ForwardParameters(renderpass, meshes, staticDescriptorSet)`
or `PostVoxelizerParameters(avt)`. Each create call stores its tag and runs its
own stage's recorder. Nothing else in these files re-invokes the recorder.

Two differences between the stages are kept as the code has them:

- **Pipeline cache.** The post-voxelizer stage creates a new pipeline cache on
  every call (`PostVoxelizerState.cpp:108-110`); `PostVoxelizerCreation` and
  `PostVoxelizerSecondCall` state exactly that. The forward stage creates its
  cache only when the handle is null (`ForwardRenderState.cpp:214-219`).
- **Render pass.** The forward stage resets the stored render pass to null
  (`ForwardRenderState.cpp:248`); the post-voxelizer stage leaves it as it was.

## Model

| member | source | states |
|---|---|---|
| RowMajorIndex.RowMajorBelow | source/ImageLoader.cpp:54-59 | cell (y, x) of a width×height grid has index y·width+x below width·height, so every write of the packing loop stays inside the pixel buffer |
| RowMajorIndex.RowMajorDivMod | source/ImageLoader.cpp:59 | the row and column of a cell are the quotient and remainder of its index by the width |
| RowMajorIndex.RowMajorInjective | source/ImageLoader.cpp:54-65 | two cells have the same index if and only if they are the same cell, so no index is written twice |
| RowMajorIndex.RowMajorOnto | source/ImageLoader.cpp:54-65 | every index below width·height is the index of some cell, so the loop covers the whole buffer |
| Vulkan.Device.Create | source/ForwardRenderState.cpp:208 | a `vkCreate*`/`vkAllocate*` call that yields one object: its handle is new and its creation info is appended |
| Vulkan.Device.CreateMany | source/ForwardRenderState.cpp:45-46 | a creation loop: n consecutive new handles, each naming an appended object with the same info |
| Vulkan.Device.UpdateDescriptorSets | source/PostVoxelizerState.cpp:207 | a `vkUpdateDescriptorSets` call: its writes and copies are appended to the update log |
| RenderStates.IfNullKeptOrCreated | source/ForwardRenderState.cpp:214-219 | a create-if-null step on a single handle keeps a handle that was set; a null one becomes a new handle past the call's start that names an object with the step's creation info, in every later device state |
| RenderStates.ArrayIfNullKeptOrCreated | source/ForwardRenderState.cpp:224-231 | the same for an array field: a set array keeps its handles and count; a null one becomes `count` consecutive new handles, each naming an object with the creation info, with its count set to `count` |
| RenderStates.CreateIfNull | source/ForwardRenderState.cpp:214-219 | returns the old handle when set, otherwise the next device handle, and appends an object only in the null case |
| RenderStates.CreateArrayIfNull | source/ForwardRenderState.cpp:224-231 | keeps a set array and its count; otherwise creates `count` objects in a loop and returns their handles and `count` |
| RenderStates.RenderState.ResetPerCall | source/ForwardRenderState.cpp:200-243 | every creation call sets the query count to 4 with four zeroed results and the new query pool, and empties the framebuffer and uniform-data arrays |
| ForwardRenderState.SubmeshCmds | source/ForwardRenderState.cpp:162-166 | defines a submesh's three commands, in order: the bind of the claimed set at set 1 with no dynamic offsets, the bind of the submesh's own index buffer (buffer, offset, index type), then the indexed draw of its count; `SubmeshCmdsProjections` states what they bind and draw, and `SubmeshesCmdsAt` and `ForwardMeshAt` where each submesh's commands lie in a buffer |
| ForwardRenderState.MeshCmds | source/ForwardRenderState.cpp:112-167 | defines a mesh's vertex bind followed by its submeshes' commands; `MeshCmdsWithin` and `ForwardMeshAt` state that the bind comes first and each submesh's three commands follow it in order, `MeshesCmdsAt` where each mesh's commands lie |
| ForwardRenderState.ForwardHead | source/ForwardRenderState.cpp:77-107 | defines the commands before the draws; stated by `ForwardFrame` |
| ForwardRenderState.ForwardTail | source/ForwardRenderState.cpp:170-175 | defines the commands after the draws; stated by `ForwardFrame` |
| ForwardRenderState.ForwardCommands | source/ForwardRenderState.cpp:77-175 | defines the recording of buffer i; stated by `ForwardFrame`, `ForwardDraws`, `ForwardDynamicSets` and `ForwardVertexBinds` |
| ForwardRenderState.SlotsDisjoint | source/ForwardRenderState.cpp:118 | slot i·budget+k is one-to-one in (i, k) for k below the budget, so framebuffers get disjoint ranges, all inside a pool of n budgets |
| ForwardRenderState.FitsFromBudget | source/ForwardRenderState.cpp:108-118 | with at most one budget of submeshes and sets for n budgets, every slot every buffer claims exists |
| ForwardRenderState.RoleCopiesByRole | source/ForwardRenderState.cpp:122-160 | a submesh's batch is three copies; the copy of role r reads the static set's image binding at the submesh's texture index for r and writes binding r, element 0, of the claimed set; roles differ in position and binding |
| ForwardRenderState.SubmeshCmdsProjections | source/ForwardRenderState.cpp:162-166 | a submesh records exactly one indexed draw of its index count, binds exactly its claimed set at set 1, and binds no vertex buffer |
| ForwardRenderState.SubmeshesUnframed | source/ForwardRenderState.cpp:115-167 | the submesh loop of a mesh records three commands per submesh and none of them begins or ends a buffer, pass or timestamp |
| ForwardRenderState.SubmeshesDraws | source/ForwardRenderState.cpp:115-167 | the submesh loop draws the submeshes' index counts in array order |
| ForwardRenderState.SubmeshesDynamicSets | source/ForwardRenderState.cpp:115-162 | the j-th submesh, with draw counter at d0, binds the set of slot i·budget+d0+j |
| ForwardRenderState.SubmeshesVertexBinds | source/ForwardRenderState.cpp:115-167 | the submesh loop binds no vertex buffers |
| ForwardRenderState.MeshesDraws | source/ForwardRenderState.cpp:108-168 | over all meshes the draws are the index counts of all submeshes in mesh-then-submesh order |
| ForwardRenderState.MeshesDynamicSets | source/ForwardRenderState.cpp:108-168 | over all meshes the k-th draw of buffer i binds the set of slot i·budget+k; the counter restarts for every framebuffer |
| ForwardRenderState.MeshesVertexBinds | source/ForwardRenderState.cpp:109-114 | each mesh binds its own vertex buffers exactly once, in mesh order |
| ForwardRenderState.MeshesUnframed | source/ForwardRenderState.cpp:108-168 | the draw section has one command per mesh plus three per submesh, none of them framing |
| ForwardRenderState.ForwardFrame | source/ForwardRenderState.cpp:77-175 | a forward buffer comes in this order: begin, reset of queries 0..3, top timestamp 0, render-pass begin on its framebuffer over the swapchain extent, viewport, scissor, pipeline 0, static set at set 0 with dynamic offset 0. It then has the draws, and ends with bottom timestamp 1, render-pass end and buffer end; framing commands occur exactly at the head and tail positions |
| ForwardRenderState.SelectForward | source/ForwardRenderState.cpp:77-175 | what a projection picks from a whole buffer it picks from the draw section, when head and tail hold nothing it picks |
| ForwardRenderState.ForwardDraws | source/ForwardRenderState.cpp:71-176 | every forward buffer draws every submesh exactly once, in order, so its draw count is the total submesh count |
| ForwardRenderState.ForwardDynamicSets | source/ForwardRenderState.cpp:118-162 | in buffer i the k-th draw binds, at set 1, the set in slot i·budget+k |
| ForwardRenderState.ForwardVertexBinds | source/ForwardRenderState.cpp:109-114 | a forward buffer binds each mesh's vertex buffers once, in mesh order |
| ForwardRenderState.SubmeshesCmdsAt | source/ForwardRenderState.cpp:115-166 | in the submesh loop, commands 3j to 3j+3 are exactly submesh j's commands with the set of slot i·budget+d0+j, so a submesh's set bind and index-buffer bind immediately precede its own draw |
| ForwardRenderState.MeshStartStep | source/ForwardRenderState.cpp:108-114 | mesh m+1 starts one vertex bind and three commands per submesh of mesh m after mesh m |
| ForwardRenderState.MeshesCmdsAtLast | source/ForwardRenderState.cpp:108-168 | the last mesh's commands close the draw section, from its closed-form start |
| ForwardRenderState.MeshesCmdsAt | source/ForwardRenderState.cpp:108-168 | in the draw section, the commands from m + 3·(submeshes before m) to the next mesh's start are exactly mesh m's commands, with its draw counter starting at the number of submeshes before it |
| ForwardRenderState.MeshCmdsWithin | source/ForwardRenderState.cpp:112-166 | where a mesh's commands lie in a sequence, its vertex bind comes first and submesh j's three commands sit at offsets 1+3j to 4+3j |
| ForwardRenderState.ForwardMeshSlice | source/ForwardRenderState.cpp:77-175 | in buffer i, mesh m's commands lie right after the eight head commands, from 8 + m + 3·(submeshes before m) |
| ForwardRenderState.ForwardMeshAt | source/ForwardRenderState.cpp:77-175 | in buffer i, mesh m's vertex bind is at 8 + m + 3·(submeshes before m), and submesh j of mesh m follows it at offsets 1+3j to 4+3j with the set of slot i·budget + (submeshes before m) + j: each draw uses the vertex buffers of its own mesh and the set and index buffer bound just before it |
| ForwardRenderState.SubmeshesUpdatesAt | source/ForwardRenderState.cpp:118-160 | the j-th submesh's update is the copy batch into the set of slot i·budget+d0+j |
| ForwardRenderState.MeshesUpdatesFlat | source/ForwardRenderState.cpp:108-160 | buffer i issues one copy batch per submesh in flattened order, the k-th into the set of slot i·budget+k |
| ForwardRenderState.ForwardCopiesFeedDraws | source/ForwardRenderState.cpp:118-162 | the k-th update of buffer i is three copies and no writes; for every role it fills exactly the set the k-th draw binds, from the k-th submesh's texture index |
| ForwardRenderState.MeshesUpdatesShape | source/ForwardRenderState.cpp:160 | every update of a buffer is three copies and no write |
| ForwardRenderState.ForwardUpdatesCount | source/ForwardRenderState.cpp:71-176 | recording n buffers issues n × (total submeshes) updates, each three copies and no write |
| ForwardRenderState.DrawSetsDistinct | source/ForwardRenderState.cpp:118 | when the pool's sets are distinct handles, no two draws of any buffers bind the same set |
| ForwardRenderState.RecordSubmeshes | source/ForwardRenderState.cpp:115-167 | the submesh loop records `SubmeshesCmds` and logs `SubmeshesUpdates`, advancing the counter d once per submesh |
| ForwardRenderState.RecordMeshes | source/ForwardRenderState.cpp:108-168 | the mesh loop, with d starting at 0, records `MeshesCmds` and logs `MeshesUpdates` |
| ForwardRenderState.RecordForwardBuffer | source/ForwardRenderState.cpp:74-175 | one loop iteration records `ForwardCommands` for its framebuffer |
| ForwardRenderState.ForwardBuffers | source/ForwardRenderState.cpp:43-46 | one command buffer per framebuffer, buffer i with handle first+i |
| ForwardRenderState.RecordForwardBuffers | source/ForwardRenderState.cpp:71-176 | buffer i is its handle with the recording for framebuffer i; the update log grows by `ForwardUpdates` |
| ForwardRenderState.BuildCommandBufferForwardRenderState | source/ForwardRenderState.cpp:19-177 | the command-buffer count becomes the framebuffer count and the list is replaced by new buffers of the pool, one per framebuffer; buffer i holds framebuffer i's recording |
| ForwardRenderState.ForwardPoolSizes | source/ForwardRenderState.cpp:289-292 | three sampled-image pool sizes, each framebufferCount × budget |
| ForwardRenderState.AllocateDynamicDescriptorSets | source/ForwardRenderState.cpp:304-314 | the nested loop fills slot i·budget+j with the (i·budget+j)-th set created: budget × framebufferCount consecutive new sets of the pool and dynamic layout |
| ForwardRenderState.CreateDescriptorSetsIfNull | source/ForwardRenderState.cpp:302-315 | sets that exist are kept with their count; otherwise budget × framebufferCount sets are allocated and that is the count |
| ForwardRenderState.ForwardCreation | source/ForwardRenderState.cpp:214-426 | after the create-if-null steps every handle field of the stage is set |
| ForwardRenderState.CreateForwardHandles | source/ForwardRenderState.cpp:214-426 | the seven steps in source order leave exactly the fields and device objects of `ForwardCreation` |
| ForwardRenderState.ForwardCreationKeepsOrCreates | source/ForwardRenderState.cpp:214-426 | each of cache, one semaphore, dynamic layout, pipeline layout over (static, dynamic), pool of framebufferCount × budget, sets and graphics pipeline (on the given render pass, with the cache) is kept when set and, when null, is a new object with exactly that creation info |
| ForwardRenderState.ForwardCreationBelow | source/ForwardRenderState.cpp:214-426 | every handle the stage owns after creation names an existing object |
| ForwardRenderState.ForwardSecondCall | source/ForwardRenderState.cpp:214-320 | a second call keeps every field and creates nothing, whatever framebuffer count, layout, render pass and vertex layout it gets; the sets stay sized for the first call's framebuffers |
| ForwardRenderState.ForwardCreationRecordable | source/ForwardRenderState.cpp:302-323 | afterwards there is a pipeline and at least budget × framebufferCount sets when the array was created by this call or already large enough |
| ForwardRenderState.CreateForwardResources | source/ForwardRenderState.cpp:200-426 | queries reset and a new query pool, handle fields as `ForwardCreation` past the query pool, framebuffers and uniform data cleared, render pass null |
| ForwardRenderState.InstallForwardRecorder | source/ForwardRenderState.cpp:431-440 | stores (renderpass, meshes, static set) as the parameter block and records through it once, for the given framebuffers |
| ForwardRenderState.CreateForwardRenderState | source/ForwardRenderState.cpp:179-441 | the whole call: state valid afterwards, queries new, fields as `ForwardCreation`, per-call fields cleared, parameters stored, one buffer per framebuffer recorded from them, and exactly these objects and updates added to the device |
| ForwardRenderState.ForwardCreateRule | source/ForwardRenderState.cpp:200-440 | over the final device: the old objects are a prefix, the query pool is the first new object, the create-if-null rule holds for every field, and the command buffers are distinct new buffers of the pool |
| PostVoxelizerState.DispatchSize | source/PostVoxelizerState.cpp:71-72 | defines the dispatched group counts (width/8·6, width/8, width/8); `DispatchCoversGrid` states what they cover |
| PostVoxelizerState.PostVoxelizerCommands | source/PostVoxelizerState.cpp:57-76 | defines the commands of cascade i's buffer; their order and contents are stated by `PostVoxelizerBufferShape` and `CascadesDiffer` |
| PostVoxelizerState.SetWrites | source/PostVoxelizerState.cpp:195-219 | defines the two single-write updates of the new set; stated by `PostVoxelizerSetWritten` |
| PostVoxelizerState.DispatchCoversGrid | source/PostVoxelizerState.cpp:71-72 | y and z group counts are equal, x is six times y, the groups cover the width up to a remainder below 8, exactly when it is a multiple of 8 |
| PostVoxelizerState.DispatchFitsUint32 | source/PostVoxelizerState.cpp:71-72 | for a 32-bit width the 32-bit product numdis·6 does not wrap |
| PostVoxelizerState.PostVoxelizerBufferShape | source/PostVoxelizerState.cpp:57-76 | a buffer is, in order: begin, reset of queries 0..3, top timestamp 0, push constants (compute, offset 0, 16 bytes, grid, cascade i), compute pipeline 0, set 0, one dispatch, bottom timestamp 1, end; it pushes one block and dispatches once |
| PostVoxelizerState.CascadesDiffer | source/PostVoxelizerState.cpp:63-66 | two cascades' buffers are equal if and only if they are the same cascade |
| PostVoxelizerState.PostVoxelizerBuffers | source/PostVoxelizerState.cpp:43-46 | one buffer per cascade, buffer i with handle first+i |
| PostVoxelizerState.RecordPostVoxelizerBuffers | source/PostVoxelizerState.cpp:55-77 | the recording loop makes buffer i the recording for cascade i |
| PostVoxelizerState.BuildCommandBufferPostVoxelizerState | source/PostVoxelizerState.cpp:23-78 | the buffer count becomes the cascade count whatever framebuffer arguments are passed, and cascadeCount new buffers of the pool replace the list |
| PostVoxelizerState.PostVoxelizerCreation | source/PostVoxelizerState.cpp:108-238 | after the steps every handle field is set, including at least one set layout |
| PostVoxelizerState.CreateDescriptorSetIfNull | source/PostVoxelizerState.cpp:184-221 | one set allocated and written twice only when the array was null; otherwise nothing changes |
| PostVoxelizerState.CreatePostVoxelizerHandles | source/PostVoxelizerState.cpp:108-238 | the steps in source order leave exactly the fields and objects of `PostVoxelizerCreation` and log the set's writes on the allocating call only |
| PostVoxelizerState.PostVoxelizerCreationKeepsOrCreates | source/PostVoxelizerState.cpp:108-238 | the pipeline cache is always new. cascadeCount semaphores, the two-storage-image layout, the layout with one 16-byte compute push range, the pool of one set, the set and the compute pipeline are each kept when set and otherwise created with that info |
| PostVoxelizerState.PostVoxelizerCreationBelow | source/PostVoxelizerState.cpp:108-238 | every handle the stage owns after creation names an existing object |
| PostVoxelizerState.PostVoxelizerSecondCall | source/PostVoxelizerState.cpp:108-238 | a second call replaces only the pipeline cache, creating exactly one object, and writes no descriptors |
| PostVoxelizerState.PostVoxelizerCreationRecordable | source/PostVoxelizerState.cpp:184-238 | afterwards there is a pipeline and a descriptor set to record with |
| PostVoxelizerState.CreatePostVoxelizerResources | source/PostVoxelizerState.cpp:94-238 | queries reset and a new query pool, fields as `PostVoxelizerCreation`, framebuffers and uniform data cleared |
| PostVoxelizerState.InstallPostVoxelizerRecorder | source/PostVoxelizerState.cpp:243-249 | stores `avt` as the parameter block and records through it once |
| PostVoxelizerState.CreatePostVoxelizerState | source/PostVoxelizerState.cpp:80-250 | the whole call: valid state, queries new, fields as `PostVoxelizerCreation`, per-call fields cleared, render pass untouched, parameters stored, one buffer per cascade recorded, and exactly these objects and updates added |
| PostVoxelizerState.PostVoxelizerCreateRule | source/PostVoxelizerState.cpp:94-249 | over the final device: the old objects are a prefix, the query pool is the first new object, the stage's create-if-null rule holds, and the buffers are distinct new buffers of the pool |
| PostVoxelizerState.PostVoxelizerSetWritten | source/PostVoxelizerState.cpp:184-221 | descriptors are written if and only if the set is allocated in this call; then the diffuse binding is written from `m_descriptor[0]` and the alpha binding from `m_alphaDescriptor`, in two single-write updates into the one new set |
| ImageLoader.Pack | source/ImageLoader.cpp:59-63 | defines the packed word: channel 0 in the low byte up to channel 3 in the high byte; its meaning is stated by `UnpackPack`, `PackUnpackAll` and `PackInjective` |
| ImageLoader.Unpack | source/ImageLoader.cpp:59-63 | defines byte k of a word, the inverse the packing is proved against |
| ImageLoader.UnpackPack | source/ImageLoader.cpp:59-63 | byte k of a packed pixel is channel k |
| ImageLoader.UnpackAllPack | source/ImageLoader.cpp:59-63 | unpacking a packed pixel gives the pixel back |
| ImageLoader.PackUnpackAll | source/ImageLoader.cpp:59-63 | every 32-bit word is the packing of its four bytes |
| ImageLoader.PackInjective | source/ImageLoader.cpp:59-63 | two pixels pack to the same word if and only if they are equal |
| ImageLoader.PackAll | source/ImageLoader.cpp:54-65 | the packed buffer has one word per source pixel and each unpacks to its pixel |
| ImageLoader.LayoutTiles | source/ImageLoader.cpp:31-52 | header at 0, mip descriptors at 24, pixels at 24 + mips·12, ending at the total size: the regions lie back to back |
| ImageLoader.PixelCount32 | source/ImageLoader.cpp:30 | the product width·height stored in a 32-bit word: below 2^32, and equal to the product whenever the product fits |
| ImageLoader.AllocatedSize | source/ImageLoader.cpp:32 | the allocation size, summed from the 32-bit pixel count and truncated to the 32-bit variable: always below 2^32 |
| ImageLoader.RecordedSize | source/ImageLoader.cpp:68 | the asset size, whose pixel term is the 32-bit product of the pixel count and 4: the descriptor bytes plus less than 2^32 pixel bytes |
| ImageLoader.SizesAgree | source/ImageLoader.cpp:30-32 | within the decoder's limit the 32-bit pixel count and allocation size do not wrap, and the allocation equals the recorded asset size and 24 + 4·W·H + 12 |
| ImageLoader.SizesDisagreeBeyondDecoderLimit | source/ImageLoader.cpp:30-68 | without that limit 2^30 − 1 pixels would allocate 32 bytes while the recorded size is 2^32 + 32, if the asset's size field is wider than 32 bits |
| ImageLoader.PackPixels | source/ImageLoader.cpp:54-65 | the nested y/x loop leaves the buffer equal to the packed source pixels |
| ImageLoader.ConvertAssetImage | source/ImageLoader.cpp:6-74 | decode failure returns 0xFFFFFFFF and leaves the asset as it was. Success returns 0, tags the asset 'IMG', records the blob's size 24 + 4·W·H + 12, and points it at a new blob with header (H, W, 1 mip, mips at offset 24), mip 0 (W, H, offset 0) and the packed pixels |

## Left out

- Vulkan itself is abstract. Every `vk*` call succeeds and yields a fresh handle or an appended command. `VK_CHECK_RESULT` failures are not modelled, nor is the fact that `vkEndCommandBuffer` (`PostVoxelizerState.cpp:76`) and `vkCreateSemaphore` (`ForwardRenderState.cpp:230`) are unchecked.
- The fixed-function state of the forward pipeline (`ForwardRenderState.cpp:326-422`) is one constant configuration value.
- Shader loading is foreign code; a shader is a value (path, entry point, stage).
- The vertex input description (`vertices`) is an opaque number.
- Floating-point values are left out: the clear colour and depth, the viewport floats, and the float grid resolution, which is a triple of naturals. The decoder's float channels scaled by 255 and truncated are modelled as 8-bit channels.
- Image decoding and the vertical flip are foreign library code. The decoder's result is an input (`Option<Decoded>`) whose pixels are row-major and number W·H. Below its own limit (2^27 pixels), the product `width*height` on `int` and the 32-bit sizes cannot overflow.
- `malloc`, `free`, memory leaks and `AllocateVirtualMemory` are not modelled. Arrays are replaced by assignment, and the blob is a new object. The allocator and allocator index are not modelled.
- The blob is held structurally (descriptors and a pixel array) rather than as raw bytes. The descriptor's mip pointer is the byte offset it designates.
- The swapchain's width and height are an `Extent2D` parameter of the forward recorder. The recorder reads them from `core`'s swap chain (`ForwardRenderState.cpp:27-28`), while the create call reads its own `swapchain` argument (`ForwardRenderState.cpp:193-194`) without using it. The model takes both to be the same swap chain, so it does not capture a caller passing a different one. The post-voxelizer stage also reads the width and height at creation without using them.
- `VCTPipelineDefines.h`, `ImageLoader.h`, `DataTypes.h` and `PipelineStates.h` are not part of this model. Their constants have fixed values here:
  - `DYNAMIC_DESCRIPTOR_SET_COUNT` = 64, `NUM_DIRECTIONS` = 6, `TEXTURE_NUM` = 3 (the copies per submesh), image bindings 0/1/2 and `STATIC_DESCRIPTOR_IMAGE` = 0;
  - voxel-grid bindings 0/1;
  - 24 bytes for `image_desc_s`, 12 for `mip_desc_s` and 16 for `PushConstantComp`;
  - 'IMG' as 0x494D47.
  The slot lemmas hold for any positive budget.
- The `uint32_t` products `framebufferCount * DYNAMIC_DESCRIPTOR_SET_COUNT` (pool sizes and set count, `ForwardRenderState.cpp:289-304`) and the slot `i*DYNAMIC_DESCRIPTOR_SET_COUNT + d` (`ForwardRenderState.cpp:118`) are computed on unbounded integers. The model assumes they do not wrap, which holds for fewer than 2^26 framebuffers.
- The eleven create-if-null handle fields of `RenderState` are grouped into one field of type `HandleFields`. Each stage stores the new fields together after its create steps, which create in source order, so the interleaving of individual field stores within one call is not modelled.
- The out-of-bounds cases the source does not check are preconditions:
  - at most `DYNAMIC_DESCRIPTOR_SET_COUNT` submeshes across all meshes;
  - on a later forward call, an existing set array that covers the new framebuffer count;
  - an existing set-layout array that is non-empty;
  - an existing pipeline array that is non-empty, in both stages, as `m_pipelines[0]` is read unchecked;
  - in the post-voxelizer stage, an existing descriptor-set array that is non-empty, as `m_descriptorSets[0]` is read unchecked;
  - a voxel texture with at least one descriptor when the post-voxelizer set is allocated.
- The post-voxelizer stage receives the device both as `core` and as `device`; both are one `Device` here.
- The message printed on decode failure (`ImageLoader.cpp:26`) is output only and is not modelled.
- A submesh's `textureIndex` array is a record with one field per texture role. The header constants `DIFFUSE_TEXTURE`, `NORMAL_TEXTURE` and `OPACITY_TEXTURE` that index it, and that place each copy in the batch, are taken as positions 0, 1 and 2.
- Teardown, concurrency, the camera and the `ImageLoader` constructor and destructor (both empty) are not modelled.

/** The post-voxelizer compute stage: one command buffer per cascade of the
    anisotropic voxel texture, each pushing its cascade index and dispatching
    a compute pass over the grid, and the create-if-null protocol that builds
    its one statically written descriptor set. */
module PostVoxelizerState {
  import opened Wrappers
  import opened Vulkan
  import opened RenderStates

  /** Voxel directions of the anisotropic texture (six axis-aligned faces). */
  const NumDirections: nat := 6

  /** Bindings of the stage's descriptor set. */
  const DescriptorVoxelGridDiffuse: nat := 0
  const DescriptorVoxelGridAlpha: nat := 1

  /** Size in bytes of the push-constant block: a three-float grid resolution
      and a 32-bit cascade index. */
  const PushConstantSize: nat := 16

  /** Grid cells per work group along each axis of the compute shader. */
  const WorkGroupSize: nat := 8

  const Uint32Limit: nat := 0x1_0000_0000

  // ---------------------------------------------------------------------------
  // Dispatch arithmetic
  // ---------------------------------------------------------------------------

  /** The work groups dispatched for a grid `width` cells wide: width/8 (rounded
      down, as the unsigned division of the source does) per axis, the x axis
      repeated once per direction. */
  function DispatchSize(width: nat): (nat, nat, nat) {
    var groups := width / WorkGroupSize;
    (groups * NumDirections, groups, groups)
  }

  /** The groups cover the grid up to a remainder of fewer than 8 cells, the x
      axis covers all six directions, and the grid is covered exactly if and
      only if its width is a multiple of 8. */
  lemma DispatchCoversGrid(width: nat)
    ensures DispatchSize(width).1 == DispatchSize(width).2
    ensures DispatchSize(width).0 == NumDirections * DispatchSize(width).1
    ensures DispatchSize(width).1 * WorkGroupSize <= width < (DispatchSize(width).1 + 1) * WorkGroupSize
    ensures width % WorkGroupSize == 0 <==> DispatchSize(width).1 * WorkGroupSize == width
  {
    var groups := width / WorkGroupSize;
    assert width == groups * WorkGroupSize + width % WorkGroupSize;
  }

  /** For a 32-bit width the 32-bit product groups*6 of the source does not wrap. */
  lemma DispatchFitsUint32(width: nat)
    requires width < Uint32Limit
    ensures DispatchSize(width).0 < Uint32Limit
  {
    var groups := width / WorkGroupSize;
    assert groups * WorkGroupSize <= width;
    assert groups * NumDirections < groups * WorkGroupSize + 1;
  }

  // ---------------------------------------------------------------------------
  // BuildCommandBufferPostVoxelizerState
  // ---------------------------------------------------------------------------

  /** What recording reads: the stage's query pool, compute pipeline, pipeline
      layout and descriptor set, and the voxel texture. */
  datatype Recording = Recording(queryPool: Handle, pipeline: Handle, layout: Handle, descriptorSet: Handle, avt: VoxelTexture)

  function Grid(avt: VoxelTexture): Extent3D {
    Extent3D(avt.width, avt.height, avt.depth)
  }

  /** The commands of the buffer for cascade i: the common opening, the
      cascade's push constants and the bindings, the dispatch and the closing. */
  function PostVoxelizerCommands(ctx: Recording, i: nat): seq<Cmd> {
    BeginRecording(ctx.queryPool) + Bindings(ctx, i) + Closing(ctx)
  }

  function Bindings(ctx: Recording, i: nat): seq<Cmd> {
    [PushConstants(ctx.layout, ComputeStage, 0, PushConstantSize, Grid(ctx.avt), i),
     BindPipeline(ComputeBindPoint, ctx.pipeline),
     BindDescriptorSet(ComputeBindPoint, ctx.layout, 0, ctx.descriptorSet, [])]
  }

  function Closing(ctx: Recording): seq<Cmd> {
    var (x, y, z) := DispatchSize(ctx.avt.width);
    [Dispatch(x, y, z), WriteTimestamp(BottomOfPipe, ctx.queryPool, 1), EndCommandBuffer]
  }

  /** Push-constant blocks pushed, as (grid, cascade), in recording order. */
  function PushOf(c: Cmd): seq<(Extent3D, nat)> {
    if c.PushConstants? then [(c.gridres, c.cascadeNum)] else []
  }

  function DispatchOf(c: Cmd): seq<(nat, nat, nat)> {
    if c.Dispatch? then [(c.x, c.y, c.z)] else []
  }

  /** Buffer i is framed like every stage's buffer, pushes exactly one block
      holding the grid and cascade i, and dispatches exactly once, with the
      grid's dispatch size, after binding the pipeline and the set. */
  lemma PostVoxelizerBufferShape(ctx: Recording, i: nat)
    ensures var cmds := PostVoxelizerCommands(ctx, i);
      |cmds| == 9 && cmds[..3] == BeginRecording(ctx.queryPool) &&
      cmds[3] == PushConstants(ctx.layout, ComputeStage, 0, PushConstantSize, Grid(ctx.avt), i) &&
      cmds[4] == BindPipeline(ComputeBindPoint, ctx.pipeline) &&
      cmds[5] == BindDescriptorSet(ComputeBindPoint, ctx.layout, 0, ctx.descriptorSet, []) &&
      cmds[6].Dispatch? && cmds[7] == WriteTimestamp(BottomOfPipe, ctx.queryPool, 1) &&
      cmds[8] == EndCommandBuffer
    ensures Select(PostVoxelizerCommands(ctx, i), PushOf) == [(Grid(ctx.avt), i)]
    ensures Select(PostVoxelizerCommands(ctx, i), DispatchOf) == [DispatchSize(ctx.avt.width)]
  {
    var begin, bindings, closing := BeginRecording(ctx.queryPool), Bindings(ctx, i), Closing(ctx);
    SelectAppend(begin + bindings, closing, PushOf);
    SelectAppend(begin, bindings, PushOf);
    Select3(begin[0], begin[1], begin[2], PushOf);
    Select3(bindings[0], bindings[1], bindings[2], PushOf);
    Select3(closing[0], closing[1], closing[2], PushOf);
    SelectAppend(begin + bindings, closing, DispatchOf);
    SelectAppend(begin, bindings, DispatchOf);
    Select3(begin[0], begin[1], begin[2], DispatchOf);
    Select3(bindings[0], bindings[1], bindings[2], DispatchOf);
    Select3(closing[0], closing[1], closing[2], DispatchOf);
  }

  /** Different cascades record different buffers: the pushed cascade index
      tells them apart, and nothing else differs. */
  lemma CascadesDiffer(ctx: Recording, i: nat, j: nat)
    ensures PostVoxelizerCommands(ctx, i) == PostVoxelizerCommands(ctx, j) <==> i == j
  {
    if PostVoxelizerCommands(ctx, i) == PostVoxelizerCommands(ctx, j) {
      assert PostVoxelizerCommands(ctx, i)[3] == PostVoxelizerCommands(ctx, j)[3];
    }
  }

  /** The buffers of `n` cascades: buffer i has handle first + i and holds the
      recording for cascade i. */
  function PostVoxelizerBuffers(ctx: Recording, first: nat, n: nat): (cbs: seq<CommandBuffer>)
    ensures |cbs| == n
    ensures forall i :: 0 <= i < n ==> cbs[i].handle == first + i
  {
    seq(n, i requires 0 <= i < n => CommandBuffer(first + i, PostVoxelizerCommands(ctx, i)))
  }

  /** Records buffer i, with handle handles[i], for cascade i, one buffer after another. */
  method RecordPostVoxelizerBuffers(ctx: Recording, handles: seq<Handle>) returns (buffers: seq<CommandBuffer>)
    ensures |buffers| == |handles|
    ensures forall i :: 0 <= i < |buffers| ==> buffers[i] == CommandBuffer(handles[i], PostVoxelizerCommands(ctx, i))
  {
    buffers := [];
    var i := 0;
    while i < |handles|
      invariant 0 <= i <= |handles| && |buffers| == i
      invariant forall k :: 0 <= k < i ==> buffers[k] == CommandBuffer(handles[k], PostVoxelizerCommands(ctx, k))
    {
      var avt := ctx.avt;
      var cmds := BeginRecording(ctx.queryPool);
      cmds := cmds + [PushConstants(ctx.layout, ComputeStage, 0, PushConstantSize,
                                    Extent3D(avt.width, avt.height, avt.depth), i)];
      cmds := cmds + [BindPipeline(ComputeBindPoint, ctx.pipeline),
                      BindDescriptorSet(ComputeBindPoint, ctx.layout, 0, ctx.descriptorSet, [])];
      var numdis := avt.width / WorkGroupSize;
      cmds := cmds + [Dispatch(numdis * NumDirections, numdis, numdis)];
      cmds := cmds + [WriteTimestamp(BottomOfPipe, ctx.queryPool, 1), EndCommandBuffer];
      buffers := buffers + [CommandBuffer(handles[i], cmds)];
      i := i + 1;
    }
  }

  /** The stage has what recording reads: a query pool, a pipeline layout, a
      pipeline and a descriptor set. */
  predicate Recordable(rs: RenderState)
    reads rs`queryPool, rs`handles
  {
    rs.queryPool.Some? && rs.handles.pipelineLayout.Some? &&
    rs.handles.pipelines.Some? && |rs.handles.pipelines.value| >= 1 &&
    rs.handles.descriptorSets.Some? && |rs.handles.descriptorSets.value| >= 1
  }

  function RecordingOf(rs: RenderState, p: Parameters): Recording
    requires Recordable(rs) && p.PostVoxelizerParameters?
    reads rs`queryPool, rs`handles
  {
    Recording(rs.queryPool.value, rs.handles.pipelines.value[0], rs.handles.pipelineLayout.value,
              rs.handles.descriptorSets.value[0], p.avt)
  }

  /** Replaces the command-buffer list with one new buffer per cascade and
      records buffer i for cascade i. The framebuffer arguments are not read:
      the count is the texture's cascade count whatever they are. */
  method BuildCommandBufferPostVoxelizerState(rs: RenderState, commandPool: Handle, dev: Device,
                                              framebufferCount: nat, framebuffers: seq<Handle>,
                                              parameters: Parameters)
    requires Recordable(rs) && parameters.PostVoxelizerParameters?
    modifies rs`commandBufferCount, rs`commandBuffers, dev`objects
    ensures rs.commandBufferCount == parameters.avt.cascadeCount <= |dev.objects|
    ensures rs.commandBuffers == PostVoxelizerBuffers(RecordingOf(rs, parameters), |dev.objects| - rs.commandBufferCount,
                                                      rs.commandBufferCount)
    ensures dev.objects == old(dev.objects) + Repeat(CommandBufferObject(commandPool), parameters.avt.cascadeCount)
  {
    var avt := parameters.avt;
    rs.commandBufferCount := avt.cascadeCount;
    var handles := dev.CreateMany(CommandBufferObject(commandPool), rs.commandBufferCount);
    var buffers := RecordPostVoxelizerBuffers(RecordingOf(rs, parameters), handles);
    rs.commandBuffers := buffers;
  }

  // ---------------------------------------------------------------------------
  // CreatePostVoxelizerState
  // ---------------------------------------------------------------------------

  /** The set layout: the diffuse and the alpha voxel grids as storage images
      of the compute shader. */
  const PostVoxelizerLayoutBindings: seq<LayoutBinding> :=
    [LayoutBinding(DescriptorVoxelGridDiffuse, StorageImage, 1, ComputeStage),
     LayoutBinding(DescriptorVoxelGridAlpha, StorageImage, 1, ComputeStage)]

  /** A pool for exactly one set with one storage image per binding. */
  const PostVoxelizerPoolObject: ObjectInfo :=
    DescriptorPoolObject(1, [PoolSize(StorageImage, 1), PoolSize(StorageImage, 1)])

  /** One set layout and one compute push-constant range covering the whole block. */
  function PostVoxelizerPipelineLayoutObject(setLayout: Handle): ObjectInfo {
    PipelineLayoutObject([setLayout], [PushConstantRange(ComputeStage, 0, PushConstantSize)])
  }

  function PostVoxelizerPipelineObject(layout: Handle, cache: Handle): ObjectInfo {
    ComputePipelineObject(layout, cache, Shader("shaders/voxelizerpost.comp.spv", "main", ComputeStage))
  }

  /** The stage's resource steps as a value: for handle fields `b` and the
      device's `objects`, the fields they leave and the device's objects after
      them. The pipeline cache is created on every call; the semaphores (one
      per cascade), the set layout, the pipeline layout, the pool, the one set
      and the compute pipeline only where their field is null. */
  function PostVoxelizerCreation(b: HandleFields, objects: seq<ObjectInfo>, avt: VoxelTexture)
    : (r: (HandleFields, seq<ObjectInfo>))
    requires b.descriptorLayouts.Some? ==> |b.descriptorLayouts.value| >= 1
    ensures r.0.pipelineCache.Some? && r.0.pipelineLayout.Some? && r.0.descriptorPool.Some?
    ensures r.0.semaphores.Some? && r.0.descriptorLayouts.Some? && r.0.descriptorSets.Some? && r.0.pipelines.Some?
    ensures |r.0.descriptorLayouts.value| >= 1
  {
    var cache := Some(|objects|);
    var o1 := objects + [PipelineCacheObject];
    var sems := ArrayIfNull(b.semaphores, |o1|, avt.cascadeCount);
    var o2 := o1 + ArrayIfNullObjects(b.semaphores, avt.cascadeCount, SemaphoreObject);
    var layouts := ArrayIfNull(b.descriptorLayouts, |o2|, 1);
    var o3 := o2 + ArrayIfNullObjects(b.descriptorLayouts, 1, DescriptorSetLayoutObject(PostVoxelizerLayoutBindings));
    var pipelineLayout := IfNull(b.pipelineLayout, |o3|);
    var o4 := o3 + IfNullObjects(b.pipelineLayout, PostVoxelizerPipelineLayoutObject(layouts.value[0]));
    var pool := IfNull(b.descriptorPool, |o4|);
    var o5 := o4 + IfNullObjects(b.descriptorPool, PostVoxelizerPoolObject);
    var sets := ArrayIfNull(b.descriptorSets, |o5|, 1);
    var o6 := o5 + ArrayIfNullObjects(b.descriptorSets, 1, DescriptorSetObject(pool.value, layouts.value[0]));
    var pipelines := ArrayIfNull(b.pipelines, |o6|, 1);
    var o7 := o6 + ArrayIfNullObjects(b.pipelines, 1, PostVoxelizerPipelineObject(pipelineLayout.value, cache.value));
    (HandleFields(cache, pipelineLayout, pool,
                  sems, ArrayCountIfNull(b.semaphores, b.semaphoreCount, avt.cascadeCount),
                  layouts, ArrayCountIfNull(b.descriptorLayouts, b.descriptorLayoutCount, 1),
                  sets, ArrayCountIfNull(b.descriptorSets, b.descriptorSetCount, 1),
                  pipelines, ArrayCountIfNull(b.pipelines, b.pipelineCount, 1)),
     o7)
  }

  /** The two writes of the new set: the first direction's image into the
      diffuse binding and the alpha image into the alpha binding, each its own
      update call. */
  function SetWrites(dstSet: Handle, avt: VoxelTexture): seq<DescriptorUpdate>
    requires |avt.descriptor| >= 1
  {
    [UpdateDescriptorSets([DescriptorWrite(dstSet, DescriptorVoxelGridDiffuse, 0, StorageImage, 1, avt.descriptor[0])], []),
     UpdateDescriptorSets([DescriptorWrite(dstSet, DescriptorVoxelGridAlpha, 0, StorageImage, 1, avt.alphaDescriptor)], [])]
  }

  /** The updates a call issues: the set's writes when it allocates the set, none otherwise. */
  function PostVoxelizerUpdates(setsBefore: Option<seq<Handle>>, setsAfter: Option<seq<Handle>>, avt: VoxelTexture)
    : seq<DescriptorUpdate>
    requires setsBefore.None? ==> |avt.descriptor| >= 1 && setsAfter.Some? && |setsAfter.value| >= 1
  {
    if setsBefore.None? then SetWrites(setsAfter.value[0], avt) else []
  }

  /** The one descriptor set, allocated and written only when the array is null. */
  method CreateDescriptorSetIfNull(sets: Option<seq<Handle>>, setCount: nat, dev: Device, pool: Handle,
                                   layout: Handle, avt: VoxelTexture)
    returns (r: Option<seq<Handle>>, rCount: nat)
    requires sets.None? ==> |avt.descriptor| >= 1
    modifies dev`objects, dev`updates
    ensures r == ArrayIfNull(sets, |old(dev.objects)|, 1) && rCount == ArrayCountIfNull(sets, setCount, 1)
    ensures dev.objects == old(dev.objects) + ArrayIfNullObjects(sets, 1, DescriptorSetObject(pool, layout))
    ensures dev.updates == old(dev.updates) + PostVoxelizerUpdates(sets, r, avt)
  {
    r, rCount := CreateArrayIfNull(sets, setCount, dev, 1, DescriptorSetObject(pool, layout));
    if sets.None? {
      var dstSet := r.value[0];
      dev.UpdateDescriptorSets([DescriptorWrite(dstSet, DescriptorVoxelGridDiffuse, 0, StorageImage, 1, avt.descriptor[0])], []);
      dev.UpdateDescriptorSets([DescriptorWrite(dstSet, DescriptorVoxelGridAlpha, 0, StorageImage, 1, avt.alphaDescriptor)], []);
    }
  }

  /** The resource steps of `CreatePostVoxelizerState` after the query pool, in
      the source's order; the new fields and objects are `PostVoxelizerCreation`
      of the old ones. */
  method CreatePostVoxelizerHandles(b: HandleFields, dev: Device, avt: VoxelTexture) returns (a: HandleFields)
    requires b.descriptorLayouts.Some? ==> |b.descriptorLayouts.value| >= 1
    requires b.descriptorSets.None? ==> |avt.descriptor| >= 1
    modifies dev`objects, dev`updates
    ensures a == PostVoxelizerCreation(b, old(dev.objects), avt).0
    ensures dev.objects == PostVoxelizerCreation(b, old(dev.objects), avt).1
    ensures dev.updates == old(dev.updates) + PostVoxelizerUpdates(b.descriptorSets, a.descriptorSets, avt)
  {
    var cache := dev.Create(PipelineCacheObject);
    var sems, semCount := CreateArrayIfNull(b.semaphores, b.semaphoreCount, dev, avt.cascadeCount, SemaphoreObject);
    var layouts, layoutCount := CreateArrayIfNull(b.descriptorLayouts, b.descriptorLayoutCount, dev, 1,
                                                  DescriptorSetLayoutObject(PostVoxelizerLayoutBindings));
    var pipelineLayout := CreateIfNull(b.pipelineLayout, dev, PostVoxelizerPipelineLayoutObject(layouts.value[0]));
    var pool := CreateIfNull(b.descriptorPool, dev, PostVoxelizerPoolObject);
    var sets, setCount := CreateDescriptorSetIfNull(b.descriptorSets, b.descriptorSetCount, dev, pool.value,
                                                    layouts.value[0], avt);
    var pipelines, pipelineCount := CreateArrayIfNull(b.pipelines, b.pipelineCount, dev, 1,
                                                      PostVoxelizerPipelineObject(pipelineLayout.value, cache));
    a := HandleFields(Some(cache), pipelineLayout, pool, sems, semCount, layouts, layoutCount, sets, setCount,
                      pipelines, pipelineCount);
  }

  /** The rule of the stage for handle fields `b` before a call and `a` after
      it: the pipeline cache is new; every other resource that was set is kept
      (with its count) and every null one is created, after the `first`
      objects, with the stage's creation info. */
  ghost predicate PostVoxelizerCreateIfNull(b: HandleFields, a: HandleFields, avt: VoxelTexture,
                                            first: nat, objects: seq<ObjectInfo>)
  {
    Created(a.pipelineCache, first, objects, PipelineCacheObject) &&
    ArrayKeptOrCreated(b.semaphores, b.semaphoreCount, a.semaphores, a.semaphoreCount, avt.cascadeCount,
                       first, objects, SemaphoreObject) &&
    a.descriptorLayouts.Some? && |a.descriptorLayouts.value| >= 1 &&
    ArrayKeptOrCreated(b.descriptorLayouts, b.descriptorLayoutCount, a.descriptorLayouts, a.descriptorLayoutCount,
                       1, first, objects, DescriptorSetLayoutObject(PostVoxelizerLayoutBindings)) &&
    KeptOrCreated(b.pipelineLayout, a.pipelineLayout, first, objects,
                  PostVoxelizerPipelineLayoutObject(a.descriptorLayouts.value[0])) &&
    KeptOrCreated(b.descriptorPool, a.descriptorPool, first, objects, PostVoxelizerPoolObject) &&
    a.descriptorPool.Some? && a.pipelineLayout.Some? && a.pipelineCache.Some? &&
    ArrayKeptOrCreated(b.descriptorSets, b.descriptorSetCount, a.descriptorSets, a.descriptorSetCount, 1,
                       first, objects, DescriptorSetObject(a.descriptorPool.value, a.descriptorLayouts.value[0])) &&
    ArrayKeptOrCreated(b.pipelines, b.pipelineCount, a.pipelines, a.pipelineCount, 1, first, objects,
                       PostVoxelizerPipelineObject(a.pipelineLayout.value, a.pipelineCache.value))
  }

  /** `PostVoxelizerCreation` follows the stage's rule, whatever the device holds later. */
  lemma PostVoxelizerCreationKeepsOrCreates(b: HandleFields, before: seq<ObjectInfo>, avt: VoxelTexture,
                                            first: nat, objects: seq<ObjectInfo>)
    requires b.descriptorLayouts.Some? ==> |b.descriptorLayouts.value| >= 1
    requires first <= |before|
    requires Prefix(PostVoxelizerCreation(b, before, avt).1, objects)
    ensures PostVoxelizerCreateIfNull(b, PostVoxelizerCreation(b, before, avt).0, avt, first, objects)
  {
    var a := PostVoxelizerCreation(b, before, avt).0;
    var layoutInfo := DescriptorSetLayoutObject(PostVoxelizerLayoutBindings);
    var pipelineLayoutInfo := PostVoxelizerPipelineLayoutObject(a.descriptorLayouts.value[0]);
    var setInfo := DescriptorSetObject(a.descriptorPool.value, a.descriptorLayouts.value[0]);
    var pipelineInfo := PostVoxelizerPipelineObject(a.pipelineLayout.value, a.pipelineCache.value);
    var o1 := before + [PipelineCacheObject];
    var o2 := o1 + ArrayIfNullObjects(b.semaphores, avt.cascadeCount, SemaphoreObject);
    var o3 := o2 + ArrayIfNullObjects(b.descriptorLayouts, 1, layoutInfo);
    var o4 := o3 + IfNullObjects(b.pipelineLayout, pipelineLayoutInfo);
    var o5 := o4 + IfNullObjects(b.descriptorPool, PostVoxelizerPoolObject);
    var o6 := o5 + ArrayIfNullObjects(b.descriptorSets, 1, setInfo);
    PrefixAppend(o6, ArrayIfNullObjects(b.pipelines, 1, pipelineInfo), objects);
    PrefixAppend(o5, ArrayIfNullObjects(b.descriptorSets, 1, setInfo), objects);
    PrefixAppend(o4, IfNullObjects(b.descriptorPool, PostVoxelizerPoolObject), objects);
    PrefixAppend(o3, IfNullObjects(b.pipelineLayout, pipelineLayoutInfo), objects);
    PrefixAppend(o2, ArrayIfNullObjects(b.descriptorLayouts, 1, layoutInfo), objects);
    PrefixAppend(o1, ArrayIfNullObjects(b.semaphores, avt.cascadeCount, SemaphoreObject), objects);
    IfNullKeptOrCreated(None, before, PipelineCacheObject, first, objects);
    ArrayIfNullKeptOrCreated(b.semaphores, b.semaphoreCount, avt.cascadeCount, o1, SemaphoreObject, first, objects);
    ArrayIfNullKeptOrCreated(b.descriptorLayouts, b.descriptorLayoutCount, 1, o2, layoutInfo, first, objects);
    IfNullKeptOrCreated(b.pipelineLayout, o3, pipelineLayoutInfo, first, objects);
    IfNullKeptOrCreated(b.descriptorPool, o4, PostVoxelizerPoolObject, first, objects);
    ArrayIfNullKeptOrCreated(b.descriptorSets, b.descriptorSetCount, 1, o5, setInfo, first, objects);
    ArrayIfNullKeptOrCreated(b.pipelines, b.pipelineCount, 1, o6, pipelineInfo, first, objects);
  }

  /** Creation keeps every handle the stage owns below the device's object count. */
  lemma PostVoxelizerCreationBelow(b: HandleFields, before: seq<ObjectInfo>, avt: VoxelTexture)
    requires b.descriptorLayouts.Some? ==> |b.descriptorLayouts.value| >= 1
    requires OwnedBelow(b, |before|)
    ensures OwnedBelow(PostVoxelizerCreation(b, before, avt).0, |PostVoxelizerCreation(b, before, avt).1|)
  {
  }

  /** A second call changes only the pipeline cache: once every field is set,
      nothing else is created, no descriptor is written again, and the other
      fields stay as the first call left them. */
  lemma PostVoxelizerSecondCall(b: HandleFields, o: seq<ObjectInfo>, o': seq<ObjectInfo>, avt: VoxelTexture)
    requires b.descriptorLayouts.Some? ==> |b.descriptorLayouts.value| >= 1
    ensures var a := PostVoxelizerCreation(b, o, avt).0;
      var again := PostVoxelizerCreation(a, o', avt);
      again.0 == a.(pipelineCache := Some(|o'|)) && again.1 == o' + [PipelineCacheObject] &&
      PostVoxelizerUpdates(a.descriptorSets, again.0.descriptorSets, avt) == []
  {
  }

  /** What creation leaves for recording: a pipeline and a descriptor set. */
  lemma PostVoxelizerCreationRecordable(b: HandleFields, before: seq<ObjectInfo>, avt: VoxelTexture)
    requires b.descriptorLayouts.Some? ==> |b.descriptorLayouts.value| >= 1
    requires b.pipelines.Some? ==> |b.pipelines.value| >= 1
    requires b.descriptorSets.Some? ==> |b.descriptorSets.value| >= 1
    ensures |PostVoxelizerCreation(b, before, avt).0.pipelines.value| >= 1
    ensures |PostVoxelizerCreation(b, before, avt).0.descriptorSets.value| >= 1
  {
  }

  /** The first half of creation: queries and pipeline cache anew, every other
      handle only where its field is null, framebuffers and uniform data
      cleared. The render pass is not touched. */
  method CreatePostVoxelizerResources(rs: RenderState, dev: Device, avt: VoxelTexture)
    requires rs.handles.descriptorLayouts.Some? ==> |rs.handles.descriptorLayouts.value| >= 1
    requires rs.handles.descriptorSets.None? ==> |avt.descriptor| >= 1
    modifies rs`queryCount, rs`queryResults, rs`queryPool, rs`handles
    modifies rs`framebufferCount, rs`framebuffers, rs`uniformDataCount, rs`uniformData, dev`objects, dev`updates
    ensures rs.queryCount == TimestampQueryCount && rs.queryResults == Some(ZeroQueryResults)
    ensures rs.queryPool == Some(|old(dev.objects)|)
    ensures rs.handles ==
              PostVoxelizerCreation(old(rs.handles), old(dev.objects) + [QueryPoolObject(TimestampQueryCount)], avt).0
    ensures dev.objects ==
              PostVoxelizerCreation(old(rs.handles), old(dev.objects) + [QueryPoolObject(TimestampQueryCount)], avt).1
    ensures dev.updates == old(dev.updates) +
              PostVoxelizerUpdates(old(rs.handles).descriptorSets, rs.handles.descriptorSets, avt)
    ensures rs.framebufferCount == 0 && rs.framebuffers == None
    ensures rs.uniformDataCount == 0 && rs.uniformData == None
  {
    var queryPool := dev.Create(QueryPoolObject(TimestampQueryCount));
    var a := CreatePostVoxelizerHandles(rs.handles, dev, avt);
    rs.ResetPerCall(queryPool);
    rs.handles := a;
  }

  /** The second half of creation: stores the parameter block and records one
      buffer per cascade through it. */
  method InstallPostVoxelizerRecorder(rs: RenderState, dev: Device, commandPool: Handle, avt: VoxelTexture)
    requires Recordable(rs)
    requires OwnedBelow(rs.handles, |dev.objects|) && Below(rs.queryPool, |dev.objects|)
    requires Counted(rs.queryResults, rs.queryCount) && Counted(rs.framebuffers, rs.framebufferCount)
    requires Counted(rs.uniformData, rs.uniformDataCount)
    modifies rs`cmdBufferParameters, rs`commandBufferCount, rs`commandBuffers, dev`objects
    ensures rs.Valid(dev)
    ensures rs.cmdBufferParameters == Some(PostVoxelizerParameters(avt))
    ensures rs.commandBufferCount == avt.cascadeCount <= |dev.objects|
    ensures rs.commandBuffers ==
              PostVoxelizerBuffers(RecordingOf(rs, rs.cmdBufferParameters.value), |dev.objects| - avt.cascadeCount,
                                   avt.cascadeCount)
    ensures dev.objects == old(dev.objects) + Repeat(CommandBufferObject(commandPool), avt.cascadeCount)
  {
    rs.cmdBufferParameters := Some(PostVoxelizerParameters(avt));
    BuildCommandBufferPostVoxelizerState(rs, commandPool, dev, 0, [], rs.cmdBufferParameters.value);
  }

  /** Fills the stage for the post-voxelizer pass: a new query pool and
      pipeline cache, every other resource only where its field is null (as
      `PostVoxelizerCreation` of the old fields), the set written only when it
      is allocated, the per-call fields cleared, then the parameter block
      stored and one buffer per cascade recorded through it. */
  method CreatePostVoxelizerState(rs: RenderState, dev: Device, commandPool: Handle, avt: VoxelTexture)
    requires rs.Valid(dev)
    requires rs.handles.descriptorLayouts.Some? ==> |rs.handles.descriptorLayouts.value| >= 1
    requires rs.handles.pipelines.Some? ==> |rs.handles.pipelines.value| >= 1
    requires rs.handles.descriptorSets.Some? ==> |rs.handles.descriptorSets.value| >= 1
    requires rs.handles.descriptorSets.None? ==> |avt.descriptor| >= 1
    modifies rs`queryCount, rs`queryResults, rs`queryPool, rs`handles
    modifies rs`framebufferCount, rs`framebuffers, rs`uniformDataCount, rs`uniformData
    modifies rs`cmdBufferParameters, rs`commandBufferCount, rs`commandBuffers, dev`objects, dev`updates
    ensures rs.Valid(dev)
    // queries: recreated on every call
    ensures rs.queryCount == TimestampQueryCount && rs.queryResults == Some(ZeroQueryResults)
    ensures rs.queryPool == Some(|old(dev.objects)|)
    // pipeline cache new, every other resource kept when set and created when null
    ensures rs.handles ==
              PostVoxelizerCreation(old(rs.handles), old(dev.objects) + [QueryPoolObject(TimestampQueryCount)], avt).0
    // cleared on every call; the render pass is left as it was
    ensures rs.framebufferCount == 0 && rs.framebuffers == None
    ensures rs.uniformDataCount == 0 && rs.uniformData == None && rs.renderpass == old(rs.renderpass)
    // the stored parameter block and the buffers recorded through it
    ensures rs.cmdBufferParameters == Some(PostVoxelizerParameters(avt)) && Recordable(rs)
    ensures rs.commandBufferCount == avt.cascadeCount <= |dev.objects|
    ensures rs.commandBuffers ==
              PostVoxelizerBuffers(RecordingOf(rs, rs.cmdBufferParameters.value), |dev.objects| - avt.cascadeCount,
                                   avt.cascadeCount)
    // the objects created: query pool, pipeline cache, the null resources, one buffer per cascade
    ensures dev.objects ==
              PostVoxelizerCreation(old(rs.handles), old(dev.objects) + [QueryPoolObject(TimestampQueryCount)], avt).1 +
              Repeat(CommandBufferObject(commandPool), avt.cascadeCount)
    // the set's two writes, on the allocating call only
    ensures dev.updates == old(dev.updates) +
              PostVoxelizerUpdates(old(rs.handles).descriptorSets, rs.handles.descriptorSets, avt)
  {
    ghost var b := rs.handles;
    ghost var before := dev.objects + [QueryPoolObject(TimestampQueryCount)];
    CreatePostVoxelizerResources(rs, dev, avt);
    PostVoxelizerCreationBelow(b, before, avt);
    PostVoxelizerCreationRecordable(b, before, avt);
    InstallPostVoxelizerRecorder(rs, dev, commandPool, avt);
  }

  /** The create-if-null rule of the stage over the device's final objects: the
      state the call began with is kept as a prefix, the query pool is the first
      object created, every resource that was set is kept and every null one
      names an object created in this call with the stage's info, and the
      command buffers are new, distinct objects of the command pool. */
  lemma PostVoxelizerCreateRule(b: HandleFields, before: seq<ObjectInfo>, avt: VoxelTexture, commandPool: Handle,
                                buffers: seq<CommandBuffer>, objects: seq<ObjectInfo>)
    requires b.descriptorLayouts.Some? ==> |b.descriptorLayouts.value| >= 1
    requires objects ==
               PostVoxelizerCreation(b, before + [QueryPoolObject(TimestampQueryCount)], avt).1 +
               Repeat(CommandBufferObject(commandPool), avt.cascadeCount)
    requires |buffers| == avt.cascadeCount <= |objects|
    requires forall i :: 0 <= i < |buffers| ==> buffers[i].handle == |objects| - avt.cascadeCount + i
    ensures Prefix(before, objects)
    ensures Created(Some(|before|), |before|, objects, QueryPoolObject(TimestampQueryCount))
    ensures PostVoxelizerCreateIfNull(b, PostVoxelizerCreation(b, before + [QueryPoolObject(TimestampQueryCount)], avt).0,
                                      avt, |before|, objects)
    ensures CreatedRun(seq(|buffers|, k requires 0 <= k < |buffers| => buffers[k].handle), |before|, objects,
                       CommandBufferObject(commandPool))
  {
    var prefix := before + [QueryPoolObject(TimestampQueryCount)];
    var created := PostVoxelizerCreation(b, prefix, avt).1;
    var run := Repeat(CommandBufferObject(commandPool), avt.cascadeCount);
    assert Prefix(created, objects) by { assert objects[..|created|] == created; }
    PostVoxelizerCreationKeepsOrCreates(b, prefix, avt, |before|, objects);
    assert Prefix(prefix, created) by { assert created[..|prefix|] == prefix; }
    PrefixTrans(prefix, created, objects);
    PrefixAppend(before, [QueryPoolObject(TimestampQueryCount)], objects);
    PrefixIndex(prefix, objects, |before|);
    forall k | 0 <= k < |buffers|
      ensures |before| <= buffers[k].handle < |objects| && objects[buffers[k].handle] == CommandBufferObject(commandPool)
    {
      assert objects[buffers[k].handle] == run[k];
    }
  }

  /** The set's descriptors are written exactly when the call allocates the set:
      then two single-write updates fill the diffuse binding from the first
      direction's image and the alpha binding from the alpha image, both into
      the one set the recorded buffers bind. */
  lemma PostVoxelizerSetWritten(b: HandleFields, before: seq<ObjectInfo>, avt: VoxelTexture)
    requires b.descriptorLayouts.Some? ==> |b.descriptorLayouts.value| >= 1
    requires b.descriptorSets.None? ==> |avt.descriptor| >= 1
    ensures var a := PostVoxelizerCreation(b, before, avt).0;
      var u := PostVoxelizerUpdates(b.descriptorSets, a.descriptorSets, avt);
      (u != [] <==> b.descriptorSets.None?) &&
      (b.descriptorSets.None? ==>
         |u| == 2 && u[0].copies == [] && u[1].copies == [] &&
         u[0].writes == [DescriptorWrite(a.descriptorSets.value[0], DescriptorVoxelGridDiffuse, 0, StorageImage, 1,
                                         avt.descriptor[0])] &&
         u[1].writes == [DescriptorWrite(a.descriptorSets.value[0], DescriptorVoxelGridAlpha, 0, StorageImage, 1,
                                         avt.alphaDescriptor)] &&
         |a.descriptorSets.value| == 1)
  {
  }
}

/** An abstract account of the graphics API the render stages drive.

    Every object the stages create (query pools, pipeline caches, layouts,
    pools, descriptor sets, pipelines, semaphores, command buffers) becomes an
    entry of `Device.objects`; its handle is its index there, so a handle is
    fresh exactly when it is at least the number of objects that existed
    before. Recording a command appends a `Cmd` value; descriptor updates take
    effect on the host when issued and go into a separate log. */
module Vulkan {

  type Handle = nat

  datatype Extent2D = Extent2D(width: nat, height: nat)
  datatype Extent3D = Extent3D(width: nat, height: nat, depth: nat)

  datatype ShaderStage = VertexStage | FragmentStage | ComputeStage
  datatype BindPoint = GraphicsBindPoint | ComputeBindPoint
  datatype PipelineStage = TopOfPipe | BottomOfPipe
  datatype DescriptorType = SampledImage | StorageImage
  datatype IndexType = Uint16 | Uint32

  /** A shader module loaded from a SPIR-V file (the loader itself is foreign). */
  datatype Shader = Shader(path: string, entry: string, stage: ShaderStage)

  datatype LayoutBinding = LayoutBinding(binding: nat, descriptorType: DescriptorType, count: nat, stage: ShaderStage)
  datatype PoolSize = PoolSize(descriptorType: DescriptorType, count: nat)
  datatype PushConstantRange = PushConstantRange(stage: ShaderStage, offset: nat, size: nat)

  /** The fixed-function state baked into a graphics pipeline, kept as one configuration value. */
  datatype FixedFunctionState = FixedFunctionState(
    triangleList: bool, cullBackFaces: bool, frontFaceCounterClockwise: bool,
    depthTest: bool, depthWrite: bool, depthCompareLessOrEqual: bool,
    blending: bool, rasterizationSamples: nat, dynamicViewportAndScissor: bool)

  /** What was asked for when an object was created. */
  datatype ObjectInfo =
    | QueryPoolObject(queryCount: nat)
    | PipelineCacheObject
    | SemaphoreObject
    | CommandBufferObject(commandPool: Handle)
    | DescriptorSetLayoutObject(bindings: seq<LayoutBinding>)
    | PipelineLayoutObject(setLayouts: seq<Handle>, pushConstantRanges: seq<PushConstantRange>)
    | DescriptorPoolObject(maxSets: nat, poolSizes: seq<PoolSize>)
    | DescriptorSetObject(pool: Handle, layout: Handle)
    | GraphicsPipelineObject(layout: Handle, renderpass: Handle, cache: Handle, vertexInput: nat,
                             state: FixedFunctionState, stages: seq<Shader>)
    | ComputePipelineObject(layout: Handle, cache: Handle, stage: Shader)

  /** `n` objects created with the same `info`, as a creation loop leaves them. */
  function Repeat(info: ObjectInfo, n: nat): (r: seq<ObjectInfo>)
    ensures |r| == n && forall k :: 0 <= k < n ==> r[k] == info
  {
    seq(n, _ => info)
  }

  /** The `n` consecutive handles from `first` on: what `n` creations in a row return. */
  function HandleRange(first: nat, n: nat): (r: seq<Handle>)
    ensures |r| == n && forall k :: 0 <= k < n ==> r[k] == first + k
  {
    seq(n, k => first + k)
  }

  /** One recorded command-buffer operation. */
  datatype Cmd =
    | BeginCommandBuffer
    | ResetQueryPool(pool: Handle, firstQuery: nat, queryCount: nat)
    | WriteTimestamp(stage: PipelineStage, pool: Handle, query: nat)
    | BeginRenderPass(renderpass: Handle, framebuffer: Handle, area: Extent2D)
    | SetViewport(viewport: Extent2D)
    | SetScissor(scissor: Extent2D)
    | BindPipeline(bindPoint: BindPoint, pipeline: Handle)
    | BindDescriptorSet(bindPoint: BindPoint, layout: Handle, firstSet: nat, descriptorSet: Handle, dynamicOffsets: seq<nat>)
    | BindVertexBuffers(firstBinding: nat, buffers: seq<Handle>, offsets: seq<nat>)
    | BindIndexBuffer(buffer: Handle, offset: nat, indexType: IndexType)
    | DrawIndexed(indexCount: nat, instanceCount: nat)
    | PushConstants(layout: Handle, stageFlags: ShaderStage, offset: nat, size: nat, gridres: Extent3D, cascadeNum: nat)
    | Dispatch(x: nat, y: nat, z: nat)
    | EndRenderPass
    | EndCommandBuffer

  /** A command buffer: its handle and what was recorded into it. */
  datatype CommandBuffer = CommandBuffer(handle: Handle, cmds: seq<Cmd>)

  /** An opaque image binding (sampler, view and layout of some image). */
  datatype ImageInfo = ImageInfo(view: Handle)

  datatype DescriptorCopy = DescriptorCopy(
    srcSet: Handle, srcBinding: nat, srcArrayElement: nat,
    dstSet: Handle, dstBinding: nat, dstArrayElement: nat, descriptorCount: nat)

  datatype DescriptorWrite = DescriptorWrite(
    dstSet: Handle, dstBinding: nat, dstArrayElement: nat,
    descriptorType: DescriptorType, descriptorCount: nat, image: ImageInfo)

  /** One host-side descriptor update call with its writes and its copies. */
  datatype DescriptorUpdate = UpdateDescriptorSets(writes: seq<DescriptorWrite>, copies: seq<DescriptorCopy>)

  /** The logical device: everything created on it, and every descriptor update issued to it. */
  class Device {
    var objects: seq<ObjectInfo>
    var updates: seq<DescriptorUpdate>

    /** Creates one object; its handle is new. */
    method Create(info: ObjectInfo) returns (h: Handle)
      modifies this`objects
      ensures h == |old(objects)|
      ensures objects == old(objects) + [info]
    {
      h := |objects|;
      objects := objects + [info];
    }

    /** Creates `n` objects of one kind, one after another, as a creation loop does. */
    method CreateMany(info: ObjectInfo, n: nat) returns (hs: seq<Handle>)
      modifies this`objects
      ensures hs == HandleRange(|old(objects)|, n)
      ensures objects == old(objects) + Repeat(info, n)
    {
      hs := [];
      var i := 0;
      while i < n
        invariant 0 <= i <= n
        invariant |hs| == i
        invariant forall k :: 0 <= k < i ==> hs[k] == |old(objects)| + k
        invariant objects == old(objects) + Repeat(info, i)
      {
        var h := Create(info);
        hs := hs + [h];
        i := i + 1;
      }
      assert hs == HandleRange(|old(objects)|, n);
    }

    /** Issues one descriptor update; it takes effect immediately on the host. */
    method UpdateDescriptorSets(writes: seq<DescriptorWrite>, copies: seq<DescriptorCopy>)
      modifies this`updates
      ensures updates == old(updates) + [DescriptorUpdate.UpdateDescriptorSets(writes, copies)]
    {
      updates := updates + [DescriptorUpdate.UpdateDescriptorSets(writes, copies)];
    }
  }
}
